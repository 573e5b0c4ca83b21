/** Which names the Standard encoding leaves alone and gives to no other name. */
module FixedNames {
  import opened Paths
  import opened StandardName

  /** A run of quotes that the encoding rounds: any but those before the pictures of NUL and slash. */
  predicate LooseFrom(quotes: nat, rest: string)
    decreases rest
  {
    if rest == "" then quotes > 0
    else if rest[0] == QUOTE then LooseFrom(quotes + 1, rest[1..])
    else (quotes > 0 && !SharesQuotes(rest[0])) || LooseFrom(0, rest[1..])
  }

  /** Two quotes before a full-width dot: with one quote it is a dot name, and encoded otherwise. */
  const SPARED: string := [QUOTE, QUOTE, FULL_DOT]

  /** Nothing else is encoded as this name is. */
  predicate Sole(name: string) {
    name in DOT_NAMES || name == SPARED || !LooseFrom(0, name)
  }

  /** A name that is its own encoding, and nobody else's. */
  predicate Clean(name: string) {
    EncodeName(name) == name && Sole(name)
  }

  // ---------------------------------------------------------------- names that encode as themselves

  lemma {:induction false} EncodeGrows(quotes: nat, rest: string)
    ensures quotes + |rest| <= |EncodeFrom(quotes, rest)|
    decreases rest
  {
    if rest != "" { EncodeGrows(if rest[0] == QUOTE then quotes + 1 else 0, rest[1..]); }
  }

  lemma NameGrows(name: string)
    ensures |name| <= |EncodeName(name)|
  {
    EncodeGrows(0, name);
  }

  /** One more quote ends the run a little later. */
  lemma QuoteMore(quotes: nat, rest: string)
    requires rest != "" && rest[0] == QUOTE
    ensures Quotes(quotes) + rest == Quotes(quotes + 1) + rest[1..]
  {
  }

  /** How many quotes the encoding leaves of a run before a character. */
  function Kept(quotes: nat, c: char): nat {
    if SharesQuotes(c) then quotes else Even(quotes)
  }

  /** The first character that is no quote stands at one place. */
  lemma SameRun(quotes: nat, start: string, others: nat, more: string)
    requires start != "" && start[0] != QUOTE && more != "" && more[0] != QUOTE
    requires Quotes(quotes) + start <= Quotes(others) + more
    ensures quotes == others && start[0] == more[0] && start[1..] <= more[1..]
  {
    var a, b := Quotes(quotes) + start, Quotes(others) + more;
    assert a[quotes] == b[quotes] == start[0];
    assert b[others] == more[0] && forall i :: 0 <= i < quotes ==> a[i] == QUOTE;
    assert quotes == others;
    assert a[quotes..] == start && b[quotes..] == more;
    assert start <= more;
  }

  lemma PlainSymbol(c: char)
    requires c != QUOTE && !IsPicture(c)
    ensures |Symbol(c)| == 1 && (Symbol(c) == [c] || IsPicture(Symbol(c)[0])) && Symbol(c)[0] != QUOTE
  {
  }

  lemma EncodeHead(read: nat, name: string)
    requires name != "" && name[0] != QUOTE
    ensures EncodeFrom(read, name) == Quotes(Kept(read, name[0])) + (Symbol(name[0]) + EncodeFrom(0, name[1..]))
  {
    hide Quotes;
  }

  lemma PictureSymbol(quotes: nat, c: char)
    requires IsPicture(c)
    ensures c != QUOTE && Symbol(c) == [QUOTE, c] && Kept(quotes, c) == Even(quotes)
  {
  }

  lemma PictureHead(read: nat, name: string)
    requires name != "" && IsPicture(name[0])
    ensures EncodeFrom(read, name) == Quotes(Even(read) + 1) + ([name[0]] + EncodeFrom(0, name[1..]))
  {
    hide *;
    var c, tail := name[0], EncodeFrom(0, name[1..]);
    PictureSymbol(read, c);
    EncodeHead(read, name);
    QuoteMore(Even(read), [QUOTE, c] + tail);
    assert ([QUOTE, c] + tail)[1..] == [c] + tail;
  }

  lemma RunIsKept(quotes: nat, c: char)
    ensures Run(quotes, c) == Quotes(Kept(quotes, c)) && quotes <= Even(quotes)
  {
  }

  /** The encoding takes one more quote into account, or rounds it. */
  lemma QuoteStep(quotes: nat, rest: string)
    requires rest != "" && rest[0] == QUOTE
    ensures EncodeFrom(quotes, rest) == EncodeFrom(quotes + 1, rest[1..])
    ensures RoundFrom(quotes, rest) == RoundFrom(quotes + 1, rest[1..])
    ensures LooseFrom(quotes, rest) == LooseFrom(quotes + 1, rest[1..])
  {
  }

  /** If the encoding begins with the text itself, its first character after the quotes is left alone. */
  lemma FixedStep(quotes: nat, rest: string)
    requires rest != "" && rest[0] != QUOTE && Quotes(quotes) + rest <= EncodeFrom(quotes, rest)
    ensures Run(quotes, rest[0]) == Quotes(quotes) && Symbol(rest[0]) == [rest[0]] && rest[1..] <= EncodeFrom(0, rest[1..])
    ensures EncodeFrom(quotes, rest) == Quotes(quotes) + [rest[0]] + EncodeFrom(0, rest[1..])
  {
    hide *;
    var c, tail := rest[0], EncodeFrom(0, rest[1..]);
    RunIsKept(quotes, c);
    if IsPicture(c) {
      PictureHead(quotes, rest);
      SameRun(quotes, rest, Even(quotes) + 1, [c] + tail);
    } else {
      PlainSymbol(c);
      EncodeHead(quotes, rest);
      SameRun(quotes, rest, Kept(quotes, c), Symbol(c) + tail);
      assert (Symbol(c) + tail)[1..] == tail && Symbol(c) == [c];
    }
  }

  /** Where the first character is left alone, the rest of the text may be looked at by itself. */
  lemma FixedSplit(quotes: nat, rest: string)
    requires rest != "" && rest[0] != QUOTE && Quotes(quotes) + rest <= EncodeFrom(quotes, rest)
    ensures Quotes(0) + rest[1..] == rest[1..] && Quotes(0) + rest[1..] <= EncodeFrom(0, rest[1..])
    ensures EncodeFrom(quotes, rest) == Quotes(quotes) + rest <==> EncodeFrom(0, rest[1..]) == rest[1..]
  {
    FixedStep(quotes, rest);
    hide EncodeFrom, Symbol, Run;
    assert Quotes(0) == "";
    var head, tail := Quotes(quotes) + [rest[0]], EncodeFrom(0, rest[1..]);
    assert Quotes(quotes) + rest == head + rest[1..];
    assert (head + rest[1..])[quotes + 1..] == rest[1..] && (head + tail)[quotes + 1..] == tail;
  }

  /** A text with which its own encoding begins is its own encoding, unless it ends in a quote. */
  lemma {:induction false} SelfPrefix(quotes: nat, rest: string)
    requires Quotes(quotes) + rest <= EncodeFrom(quotes, rest)
    requires rest != "" && rest[|rest| - 1] != QUOTE
    ensures EncodeFrom(quotes, rest) == Quotes(quotes) + rest
    decreases rest
  {
    if rest[0] == QUOTE {
      QuoteMore(quotes, rest);
      SelfPrefix(quotes + 1, rest[1..]);
    } else {
      FixedSplit(quotes, rest);
      if |rest| > 1 { SelfPrefix(0, rest[1..]); }
    }
  }

  lemma {:induction false} RoundOfFixed(quotes: nat, rest: string)
    requires EncodeFrom(quotes, rest) == Quotes(quotes) + rest
    ensures RoundFrom(quotes, rest) == Quotes(quotes) + rest
    decreases rest
  {
    if rest == "" {
    } else if rest[0] == QUOTE {
      QuoteMore(quotes, rest);
      RoundOfFixed(quotes + 1, rest[1..]);
    } else {
      FixedStep(quotes, rest);
      FixedSplit(quotes, rest);
      RoundOfFixed(0, rest[1..]);
      assert Quotes(quotes) + [rest[0]] + rest[1..] == Quotes(quotes) + rest;
    }
  }

  // ---------------------------------------------------------------- without loose quotes a name is sole

  /** Rounding changes nothing else: a rounded text without loose quotes was not changed at all. */
  lemma {:induction false} RoundedWithoutLoose(quotes: nat, rest: string)
    requires !LooseFrom(0, RoundFrom(quotes, rest))
    ensures RoundFrom(quotes, rest) == Quotes(quotes) + rest
    decreases rest
  {
    hide *;
    if rest == "" {
      EndWithoutLoose(quotes);
    } else if rest[0] == QUOTE {
      QuoteMore(quotes, rest);
      QuoteStep(quotes, rest);
      RoundedWithoutLoose(quotes + 1, rest[1..]);
    } else {
      RunWithoutLoose(quotes, rest);
      RoundedWithoutLoose(0, rest[1..]);
      assert Quotes(0) + rest[1..] == rest[1..];
      assert Quotes(quotes) + [rest[0]] + rest[1..] == Quotes(quotes) + rest;
    }
  }

  lemma EndWithoutLoose(quotes: nat)
    requires !LooseFrom(0, RoundFrom(quotes, ""))
    ensures RoundFrom(quotes, "") == Quotes(quotes) + ""
  {
    hide Quotes;
    LooseQuotes(Even(quotes), "");
    assert Quotes(Even(quotes)) + "" == Quotes(Even(quotes));
    assert LooseFrom(Even(quotes), "") == (Even(quotes) > 0);
  }

  lemma RoundHead(quotes: nat, rest: string)
    requires rest != "" && rest[0] != QUOTE
    ensures RoundFrom(quotes, rest) == Quotes(Kept(quotes, rest[0])) + ([rest[0]] + RoundFrom(0, rest[1..]))
  {
    hide Quotes;
  }

  lemma LooseHead(quotes: nat, c: char, tail: string)
    requires c != QUOTE && !LooseFrom(quotes, [c] + tail)
    ensures (quotes == 0 || SharesQuotes(c)) && !LooseFrom(0, tail)
  {
    assert ([c] + tail)[0] == c && ([c] + tail)[1..] == tail;
  }

  lemma TightIsKept(quotes: nat, c: char)
    requires Kept(quotes, c) == 0 || SharesQuotes(c)
    ensures Kept(quotes, c) == quotes
  {
  }

  lemma RunWithoutLoose(quotes: nat, rest: string)
    requires rest != "" && rest[0] != QUOTE && !LooseFrom(0, RoundFrom(quotes, rest))
    ensures RoundFrom(quotes, rest) == Quotes(quotes) + [rest[0]] + RoundFrom(0, rest[1..])
    ensures !LooseFrom(0, RoundFrom(0, rest[1..]))
  {
    hide *;
    var c, tail := rest[0], RoundFrom(0, rest[1..]);
    RoundHead(quotes, rest);
    LooseQuotes(Kept(quotes, c), [c] + tail);
    LooseHead(Kept(quotes, c), c, tail);
    TightIsKept(quotes, c);
  }

  lemma {:induction false} LooseQuotes(quotes: nat, rest: string)
    ensures LooseFrom(0, Quotes(quotes) + rest) == LooseFrom(quotes, rest)
    decreases quotes
  {
    LooseQuotesFrom(0, quotes, rest);
  }

  lemma {:induction false} LooseQuotesFrom(before: nat, quotes: nat, rest: string)
    ensures LooseFrom(before, Quotes(quotes) + rest) == LooseFrom(before + quotes, rest)
    decreases quotes
  {
    if quotes == 0 {
      assert Quotes(0) + rest == rest;
    } else {
      assert (Quotes(quotes) + rest)[1..] == Quotes(quotes - 1) + rest;
      LooseQuotesFrom(before + 1, quotes - 1, rest);
    }
  }

  /** A sole name is rounded to itself, and no other name is rounded to it. */
  lemma SoleIsRounded(name: string, other: string)
    requires Sole(name) && (name == SPARED || name in DOT_NAMES || RoundFrom(0, name) == name)
    requires Rounded(other) == name
    ensures other == name
  {
    if other !in DOT_NAMES {
      if !LooseFrom(0, name) {
        RoundedWithoutLoose(0, other);
        assert Quotes(0) + other == other;
      } else if name == SPARED {
        RoundedToSpared(other);
      } else {
        EncodeRound(0, other);
        assert name[0] == QUOTE by { UnquotedDotIsTight(name); }
        QuotedDotRounds(name);
      }
    }
  }

  /** The dot names without quotes have no loose quotes. */
  lemma UnquotedDotIsTight(name: string)
    requires name in DOT_NAMES && LooseFrom(0, name)
    ensures name[0] == QUOTE
  {
    assert [FULL_DOT][1..] == "" && [FULL_DOT, FULL_DOT][1..] == [FULL_DOT];
  }

  /** The spared name is what a dot name would be rounded to. */
  lemma RoundedToSpared(other: string)
    requires other !in DOT_NAMES && RoundFrom(0, other) == SPARED
    ensures other == SPARED
  {
    RoundKeepsDot(0, other);
    assert Quotes(0) + other == other;
  }

  lemma {:induction false} RoundKeepsDot(quotes: nat, rest: string)
    requires RoundFrom(quotes, rest) == SPARED
    ensures Quotes(quotes) + rest in {SPARED, [QUOTE, FULL_DOT]}
    decreases rest
  {
    if rest == "" {
    } else if rest[0] == QUOTE {
      QuoteMore(quotes, rest);
      RoundKeepsDot(quotes + 1, rest[1..]);
    } else {
      var run, tail := Run(quotes, rest[0]), RoundFrom(0, rest[1..]);
      assert (run + [rest[0]] + tail)[|run|] == rest[0];
      assert |run| == 2 && tail == "" && rest[0] == FULL_DOT;
      RoundShrinksNot(0, rest[1..]);
      assert rest == [FULL_DOT] && quotes in {1, 2};
      assert Quotes(1) + rest == [QUOTE, FULL_DOT] && Quotes(2) + rest == SPARED;
    }
  }

  lemma {:induction false} RoundShrinksNot(quotes: nat, rest: string)
    ensures quotes + |rest| <= |RoundFrom(quotes, rest)|
    decreases rest
  {
    if rest != "" { RoundShrinksNot(if rest[0] == QUOTE then quotes + 1 else 0, rest[1..]); }
  }

  /** Nothing but a clean name is encoded as that name. */
  lemma CleanIsExact(name: string, other: string)
    requires Clean(name)
    ensures EncodeName(other) == name <==> other == name
  {
    if EncodeName(other) == name {
      CollideIffRounded(other, name);
      if name !in DOT_NAMES {
        assert Quotes(0) + name == name;
        RoundOfFixed(0, name);
      }
      SoleIsRounded(name, other);
    }
  }

  // ---------------------------------------------------------------- with loose quotes a name is shared

  /** The text with one quote fewer in its first loose run. */
  function ThinFrom(quotes: nat, rest: string): (r: string)
    requires LooseFrom(quotes, rest)
    ensures |r| + 1 == quotes + |rest|
    ensures forall c :: c in r ==> c == QUOTE || c in rest
    ensures rest != "" && rest[|rest| - 1] != QUOTE ==> r != "" && r[|r| - 1] == rest[|rest| - 1]
    decreases rest
  {
    if rest == "" then Quotes(quotes - 1)
    else if rest[0] == QUOTE then ThinFrom(quotes + 1, rest[1..])
    else if quotes > 0 && !SharesQuotes(rest[0]) then Quotes(quotes - 1) + rest
    else Quotes(quotes) + [rest[0]] + ThinFrom(0, rest[1..])
  }

  /** Rounding puts the quote back. */
  lemma {:induction false} ThinRounds(quotes: nat, rest: string)
    requires LooseFrom(quotes, rest) && EncodeFrom(quotes, rest) == Quotes(quotes) + rest
    ensures RoundFrom(0, ThinFrom(quotes, rest)) == RoundFrom(quotes, rest) && QUOTE in ThinFrom(quotes, rest)
    decreases rest
  {
    hide Quotes;
    if rest == "" {
      assert Quotes(quotes) + "" == Quotes(quotes) && |Quotes(Even(quotes))| == quotes;
      ThinEnd(quotes);
    } else if rest[0] == QUOTE {
      QuoteMore(quotes, rest);
      ThinRounds(quotes + 1, rest[1..]);
    } else if quotes > 0 && !SharesQuotes(rest[0]) {
      FixedStep(quotes, rest);
      assert |Quotes(Even(quotes))| == quotes;
      ThinRun(quotes, rest);
    } else {
      FixedSplit(quotes, rest);
      ThinRounds(0, rest[1..]);
      ThinLater(quotes, rest);
    }
  }

  lemma EvenBelow(quotes: nat)
    requires quotes > 0 && Even(quotes) == quotes
    ensures quotes > 1 && Even(quotes - 1) == quotes
  {
  }

  lemma ThinEnd(quotes: nat)
    requires quotes > 0 && Even(quotes) == quotes
    ensures RoundFrom(0, ThinFrom(quotes, "")) == RoundFrom(quotes, "") && QUOTE in ThinFrom(quotes, "")
  {
    EvenBelow(quotes);
    hide Quotes, Even;
    assert Quotes(quotes - 1) + "" == Quotes(quotes - 1);
    assert Quotes(quotes - 1)[0] == QUOTE;
    RoundQuotes(0, quotes - 1, "");
  }

  lemma ThinRun(quotes: nat, rest: string)
    requires rest != "" && rest[0] != QUOTE && !SharesQuotes(rest[0]) && quotes > 0 && Even(quotes) == quotes
    ensures LooseFrom(quotes, rest)
    ensures RoundFrom(0, ThinFrom(quotes, rest)) == RoundFrom(quotes, rest) && QUOTE in ThinFrom(quotes, rest)
  {
    EvenBelow(quotes);
    hide Quotes, Even;
    assert (Quotes(quotes - 1) + rest)[0] == QUOTE;
    RoundQuotes(0, quotes - 1, rest);
    assert ThinFrom(quotes, rest) == Quotes(quotes - 1) + rest;
    assert Run(quotes - 1, rest[0]) == Run(quotes, rest[0]);
  }

  lemma ThinBehind(quotes: nat, rest: string)
    requires rest != "" && rest[0] != QUOTE && (quotes == 0 || SharesQuotes(rest[0])) && LooseFrom(0, rest[1..])
    ensures LooseFrom(quotes, rest)
    ensures ThinFrom(quotes, rest) == Quotes(quotes) + ([rest[0]] + ThinFrom(0, rest[1..]))
  {
    hide Quotes;
  }

  lemma ThinLater(quotes: nat, rest: string)
    requires rest != "" && rest[0] != QUOTE && (quotes == 0 || SharesQuotes(rest[0])) && LooseFrom(0, rest[1..])
    requires RoundFrom(0, ThinFrom(0, rest[1..])) == RoundFrom(0, rest[1..]) && QUOTE in ThinFrom(0, rest[1..])
    ensures LooseFrom(quotes, rest)
    ensures RoundFrom(0, ThinFrom(quotes, rest)) == RoundFrom(quotes, rest) && QUOTE in ThinFrom(quotes, rest)
  {
    hide *;
    ThinBehind(quotes, rest);
    var later := [rest[0]] + ThinFrom(0, rest[1..]);
    assert later[0] == rest[0] && later[1..] == ThinFrom(0, rest[1..]);
    RoundQuotes(0, quotes, later);
    RoundHead(quotes, later);
    RoundHead(quotes, rest);
  }

  lemma ThinEncodes(name: string)
    requires EncodeFrom(0, name) == name && LooseFrom(0, name)
    ensures var thin := ThinFrom(0, name); QUOTE in thin && RoundFrom(0, thin) == name && EncodeFrom(0, thin) == name
  {
    assert Quotes(0) + name == name;
    ThinRounds(0, name);
    RoundOfFixed(0, name);
    EncodeRound(0, ThinFrom(0, name));
  }

  /** A name that is its own encoding but not sole is also the encoding of a shorter one. */
  lemma NotSoleIsShared(name: string)
    requires EncodeName(name) == name && !Sole(name)
    ensures EncodeName(ThinFrom(0, name)) == name && QUOTE in ThinFrom(0, name)
  {
    var thin := ThinFrom(0, name);
    ThinEncodes(name);
    if thin in DOT_NAMES { QuotedDotLonger(thin); }
  }

  lemma QuotedDotLonger(name: string)
    requires name in DOT_NAMES && QUOTE in name
    ensures RoundFrom(0, name) == SPARED || |RoundFrom(0, name)| > |name| + 1
  {
    hide Quotes;
    var one := [QUOTE, FULL_DOT];
    RoundQuotedDot("");
    assert one + "" == one && RoundFrom(0, "") == "";
    if name != one {
      RoundQuotedDot(one);
      assert name == one + one;
    }
  }

  lemma RoundQuotedDot(rest: string)
    ensures RoundFrom(0, [QUOTE, FULL_DOT] + rest) == SPARED + RoundFrom(0, rest)
  {
    var name, dot := [QUOTE, FULL_DOT] + rest, [FULL_DOT] + rest;
    assert name[1..] == dot && dot[1..] == rest;
    assert RoundFrom(0, name) == RoundFrom(1, dot);
    assert Quotes(2) == [QUOTE, QUOTE] && Even(1) == 2;
  }

  /** Exactly the clean names are the encoding of themselves and of nothing else. */
  lemma CleanIff(name: string)
    ensures Clean(name) <==> forall other :: EncodeName(other) == name <==> other == name
  {
    hide EncodeName;
    if Clean(name) {
      forall other ensures EncodeName(other) == name <==> other == name { CleanIsExact(name, other); }
    } else if EncodeName(name) == name {
      NotSoleIsShared(name);
      assert |ThinFrom(0, name)| < |name|;
    }
  }

  // ---------------------------------------------------------------- prefixes

  lemma {:induction false} EncodeAppend(quotes: nat, start: string, more: string)
    requires start != "" && start[|start| - 1] != QUOTE
    ensures EncodeFrom(quotes, start + more) == EncodeFrom(quotes, start) + EncodeFrom(0, more)
    decreases start
  {
    hide Quotes, Run, Symbol;
    assert (start + more)[0] == start[0] && (start + more)[1..] == start[1..] + more;
    if |start| == 1 {
      assert start[1..] + more == more && start[1..] == "" && EncodeFrom(0, "") == "";
    } else {
      EncodeAppend(if start[0] == QUOTE then quotes + 1 else 0, start[1..], more);
    }
  }

  /** A picture is encoded with a quote before it, so it never matches a character left alone. */
  lemma NoPictureHead(quotes: nat, start: string, read: nat, name: string)
    requires start != "" && start[0] != QUOTE && Symbol(start[0]) == [start[0]] && name != "" && IsPicture(name[0])
    ensures !(Quotes(quotes) + start <= EncodeFrom(read, name))
  {
    hide Quotes, EncodeFrom;
    if Quotes(quotes) + start <= EncodeFrom(read, name) {
      PictureHead(read, name);
      SameRun(quotes, start, Even(read) + 1, [name[0]] + EncodeFrom(0, name[1..]));
    }
  }

  lemma PlainHead(quotes: nat, start: string, read: nat, name: string)
    requires start != "" && start[0] != QUOTE && Symbol(start[0]) == [start[0]]
    requires name != "" && name[0] != QUOTE && !IsPicture(name[0])
    requires Quotes(quotes) + start <= EncodeFrom(read, name)
    ensures quotes == Kept(read, name[0])
    ensures start[0] == name[0] && start[1..] <= EncodeFrom(0, name[1..])
  {
    hide *;
    var more, tail := Symbol(name[0]) + EncodeFrom(0, name[1..]), EncodeFrom(0, name[1..]);
    PlainSymbol(name[0]);
    EncodeHead(read, name);
    SameRun(quotes, start, Kept(read, name[0]), more);
    assert more[1..] == tail && more[0] == Symbol(name[0])[0];
    NoPictureLeft(start[0]);
  }

  lemma NoPictureLeft(c: char)
    requires Symbol(c) == [c]
    ensures !IsPicture(c)
  {
    assert |[QUOTE, c]| == 2;
  }

  /** Where the encoding goes on with a plain character after `quotes` quotes, none of them loose,
      the name does so as well. */
  lemma SameHead(quotes: nat, start: string, read: nat, name: string)
    requires start != "" && start[0] != QUOTE && name != "" && name[0] != QUOTE
    requires EncodeFrom(quotes, start) == Quotes(quotes) + start && !LooseFrom(quotes, start)
    requires Quotes(quotes) + start <= EncodeFrom(read, name)
    ensures quotes == read && start[0] == name[0] && start[1..] <= EncodeFrom(0, name[1..])
  {
    FixedStep(quotes, start);
    hide Quotes, EncodeFrom;
    assert !IsPicture(name[0]) by {
      if IsPicture(name[0]) { NoPictureHead(quotes, start, read, name); }
    }
    PlainHead(quotes, start, read, name);
  }

  lemma JoinHeads(quotes: nat, start: string, name: string)
    requires start != "" && name != "" && start[0] == name[0] && start[1..] <= name[1..]
    ensures Quotes(quotes) + start <= Quotes(quotes) + name
  {
    hide Quotes;
    assert start == [start[0]] + start[1..] && name == [name[0]] + name[1..];
    assert start <= name;
  }

  lemma NoHeadLeft(quotes: nat, start: string, read: nat)
    requires start != "" && start[0] != QUOTE
    ensures !(Quotes(quotes) + start <= EncodeFrom(read, ""))
  {
    hide Quotes;
    var a, b := Quotes(quotes) + start, Quotes(Even(read));
    assert a[quotes] == start[0] && forall i :: 0 <= i < |b| ==> b[i] == QUOTE;
  }

  lemma TightTail(quotes: nat, start: string)
    requires start != "" && start[0] != QUOTE && !LooseFrom(quotes, start)
    ensures !LooseFrom(0, start[1..])
  {
  }

  /** Behind a start that the encoding leaves alone and gives to nothing else, the name begins alike. */
  lemma {:induction false} SameStart(quotes: nat, start: string, read: nat, name: string)
    requires start != "" && start[|start| - 1] != QUOTE
    requires EncodeFrom(quotes, start) == Quotes(quotes) + start && !LooseFrom(quotes, start)
    requires Quotes(quotes) + start <= EncodeFrom(read, name)
    ensures Quotes(quotes) + start <= Quotes(read) + name
    decreases |start| + |name|
  {
    hide *;
    if start[0] == QUOTE {
      QuoteMore(quotes, start);
      QuoteStep(quotes, start);
      SameStart(quotes + 1, start[1..], read, name);
    } else if name == "" {
      NoHeadLeft(quotes, start, read);
    } else if name[0] == QUOTE {
      QuoteMore(read, name);
      QuoteStep(read, name);
      SameStart(quotes, start, read + 1, name[1..]);
    } else {
      SameHead(quotes, start, read, name);
      FixedSplit(quotes, start);
      TightTail(quotes, start);
      assert Quotes(0) + name[1..] == name[1..];
      assert Quotes(0) + start[1..] == start[1..];
      if |start| > 1 { SameStart(0, start[1..], 0, name[1..]); }
      JoinHeads(quotes, start, name);
    }
  }

  /** A start of a name whose last character makes it neither a dot name nor end in a quote. */
  predicate Stem(start: string) {
    start != "" && start[|start| - 1] == '-'
  }

  lemma StemIsPlain(start: string, more: string)
    requires Stem(start)
    ensures start + more !in DOT_NAMES && start !in DOT_NAMES && start != SPARED
  {
    assert (start + more)[|start| - 1] == '-';
  }

  /** Nothing but what begins with a clean stem is encoded to something that begins with it. */
  lemma StemIsExact(start: string, name: string)
    requires Stem(start) && Clean(start)
    ensures start <= EncodeName(name) <==> start <= name
  {
    assert Quotes(0) + start == start && Quotes(0) + name == name;
    StemIsPlain(start, "");
    if start <= name {
      var more := name[|start|..];
      assert name == start + more;
      StemIsPlain(start, more);
      EncodeAppend(0, start, more);
    } else if name !in DOT_NAMES && start <= EncodeName(name) {
      SameStart(0, start, 0, name);
    }
  }

  /** A text of `n` letters, which the encoding leaves alone. */
  function Letters(n: nat): (s: string)
    ensures |s| == n && forall c :: c in s ==> c == 'a'
    ensures n > 0 ==> s[0] == 'a'
  {
    if n == 0 then "" else "a" + Letters(n - 1)
  }

  lemma {:induction false} LettersFixed(n: nat)
    ensures EncodeFrom(0, Letters(n)) == Letters(n)
  {
    if n > 0 {
      LettersFixed(n - 1);
      assert ("a" + Letters(n - 1))[1..] == Letters(n - 1) && Quotes(Even(0)) == "";
    }
  }

  /** What begins with a stem that is not its own encoding is encoded to something that does not. */
  lemma StemNotFixed(start: string, more: string)
    requires Stem(start) && EncodeName(start) != start
    ensures !(start <= EncodeName(start + more))
  {
    StemIsPlain(start, more);
    EncodeAppend(0, start, more);
    EncodeGrows(0, start);
    if start <= EncodeFrom(0, start) {
      assert Quotes(0) + start == start;
      SelfPrefix(0, start);
    }
  }

  /** A shorter name behind which everything is encoded to something that begins with the stem. */
  lemma StemIsShared(start: string, n: nat)
    requires Stem(start) && EncodeName(start) == start && !Sole(start)
    ensures var other := ThinFrom(0, start) + Letters(n + 1);
            EncodeName(other) == start + Letters(n + 1) && !(start <= other)
  {
    hide Letters, ThinFrom, EncodeFrom, RoundFrom, LooseFrom;
    var thin, more := ThinFrom(0, start), Letters(n + 1);
    StemIsPlain(start, "");
    ThinEncodes(start);
    StemIsPlain(thin, more);
    EncodeAppend(0, thin, more);
    LettersFixed(n + 1);
    assert (thin + more)[|thin|] == more[0] == 'a';
  }

  /** Quotes that are loose stay so when the text goes on. */
  lemma {:induction false} LooseAppend(quotes: nat, start: string, more: string)
    requires LooseFrom(quotes, start) && more != "" && more[0] != QUOTE && !SharesQuotes(more[0])
    ensures LooseFrom(quotes, start + more)
    decreases start
  {
    if start == "" {
      assert start + more == more;
    } else {
      assert (start + more)[0] == start[0] && (start + more)[1..] == start[1..] + more;
      if start[0] == QUOTE {
        LooseAppend(quotes + 1, start[1..], more);
      } else if LooseFrom(0, start[1..]) {
        LooseAppend(0, start[1..], more);
      }
    }
  }

  lemma {:induction false} FixedStart(quotes: nat, start: string, more: string)
    requires EncodeFrom(quotes, start + more) == Quotes(quotes) + (start + more) && !LooseFrom(quotes, start)
    ensures EncodeFrom(quotes, start) == Quotes(quotes) + start
    decreases start
  {
    hide Quotes, Symbol, Run;
    if start == "" {
      EmptyFixed();
    } else {
      var whole := start + more;
      assert whole[0] == start[0] && whole[1..] == start[1..] + more;
      if start[0] == QUOTE {
        QuoteMore(quotes, start);
        QuoteMore(quotes, whole);
        FixedStart(quotes + 1, start[1..], more);
      } else {
        FixedStep(quotes, whole);
        FixedSplit(quotes, whole);
        assert Quotes(0) + start[1..] == start[1..];
        FixedStart(0, start[1..], more);
        FixedOnce(quotes, start);
      }
    }
  }

  lemma EmptyFixed()
    ensures EncodeFrom(0, "") == Quotes(0) + ""
  {
  }

  lemma FixedOnce(quotes: nat, text: string)
    requires text != "" && text[0] != QUOTE && Run(quotes, text[0]) == Quotes(quotes) && Symbol(text[0]) == [text[0]]
    requires EncodeFrom(0, text[1..]) == text[1..]
    ensures EncodeFrom(quotes, text) == Quotes(quotes) + text
  {
    hide Quotes, Symbol, Run;
    assert EncodeFrom(quotes, text) == Run(quotes, text[0]) + Symbol(text[0]) + text[1..];
    assert Quotes(quotes) + [text[0]] + text[1..] == Quotes(quotes) + text;
  }

  /** A name before a suffix that begins with no quote is clean if the two together are. */
  lemma CleanStart(name: string, more: string)
    requires Stem(name + more) && Clean(name + more) && more != "" && more[0] != QUOTE && !SharesQuotes(more[0])
    ensures Clean(name)
  {
    StemIsPlain(name + more, "");
    assert name + more + "" == name + more;
    if LooseFrom(0, name) { LooseAppend(0, name, more); }
    assert Quotes(0) + (name + more) == name + more && Quotes(0) + name == name;
    FixedStart(0, name, more);
  }

  // ---------------------------------------------------------------- clean names, character by character

  predicate Plain(text: string) {
    forall c :: c in text ==> !IsControl(c) && !IsPicture(c)
  }

  lemma {:induction false} PlainIff(quotes: nat, rest: string)
    requires !LooseFrom(quotes, rest)
    ensures Plain(rest) <==> EncodeFrom(quotes, rest) == Quotes(quotes) + rest
    decreases rest
  {
    hide Quotes;
    if rest == "" {
      assert Quotes(0) + rest == Quotes(0);
    } else {
      assert rest == [rest[0]] + rest[1..];
      if rest[0] == QUOTE {
        QuoteMore(quotes, rest);
        PlainIff(quotes + 1, rest[1..]);
      } else {
        PlainIff(0, rest[1..]);
        assert Quotes(0) + rest[1..] == rest[1..];
        if EncodeFrom(quotes, rest) == Quotes(quotes) + rest {
          FixedHeadIsPlain(quotes, rest);
          assert rest[0] in [rest[0]];
        }
        if Plain(rest) {
          assert rest[0] in rest;
          PlainHeadIsFixed(quotes, rest);
        }
      }
    }
  }

  lemma FixedHeadIsPlain(quotes: nat, rest: string)
    requires rest != "" && rest[0] != QUOTE && EncodeFrom(quotes, rest) == Quotes(quotes) + rest
    ensures Plain([rest[0]]) && EncodeFrom(0, rest[1..]) == rest[1..]
  {
    FixedStep(quotes, rest);
    FixedSplit(quotes, rest);
    hide Quotes, EncodeFrom;
    NoPictureLeft(rest[0]);
    assert Symbol(rest[0]) == [rest[0]];
  }

  lemma PlainHeadIsFixed(quotes: nat, rest: string)
    requires rest != "" && rest[0] != QUOTE && (quotes == 0 || SharesQuotes(rest[0]))
    requires !IsControl(rest[0]) && !IsPicture(rest[0]) && EncodeFrom(0, rest[1..]) == rest[1..]
    ensures EncodeFrom(quotes, rest) == Quotes(quotes) + rest
  {
    EncodeHead(quotes, rest);
    hide Quotes, EncodeFrom;
    assert Quotes(Kept(quotes, rest[0])) == Quotes(quotes) by { assert quotes == 0 ==> Even(quotes) == 0; }
    assert Symbol(rest[0]) + rest[1..] == rest;
  }

  /** A clean name has no control character or picture of one, and quotes only before the pictures
      of NUL and slash; the dot names and the spared name are clean by exception. */
  lemma CleanMeaning(name: string)
    ensures Clean(name) <==> name in DOT_NAMES || name == SPARED || (Plain(name) && !LooseFrom(0, name))
  {
    assert Quotes(0) + name == name;
    if !LooseFrom(0, name) { PlainIff(0, name); }
    SparedFixed();
  }

  lemma SparedFixed()
    ensures EncodeName(SPARED) == SPARED
  {
    assert Quotes(2) == [QUOTE, QUOTE];
    assert Quotes(2) + [FULL_DOT] == SPARED;
    RoundQuotes(0, 2, [FULL_DOT]);
    assert EncodeFrom(2, [FULL_DOT]) == Quotes(2) + [FULL_DOT] + "";
    assert |SPARED| == 3 && SPARED[1] == QUOTE;
  }
}
