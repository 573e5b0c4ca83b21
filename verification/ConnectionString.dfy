/** `parseRemote` of src/syncpath.go: remotes named by connection strings, whose option values may
    be quoted, with a doubled quote for a literal one. Strings are sequences of bytes. */
module ConnectionString {
  import opened Prelude

  const SEPARATORS := ":,/\\"
  const KEY_STOPS := "=,:"
  const VALUE_STOPS := ",:"
  const QUOTES := "'\""

  datatype Error = InvalidOption | UnterminatedQuote | MissingColon

  /** A local path, or a remote with its options and the index of the colon that ends its name. */
  datatype Spec = LocalPath | Remote(name: string, options: map<string, string>, colon: nat)

  // ---------------------------------------------------------------- the grammar, by suffixes

  /** How far a text goes without any of the stops. */
  function Scan(s: string, stops: string): (n: nat)
    ensures n <= |s| && (forall k :: 0 <= k < n ==> s[k] !in stops) && (n < |s| ==> s[n] in stops)
  {
    if s == "" || s[0] in stops then 0 else 1 + Scan(s[1..], stops)
  }

  function Push(c: char, r: Option<(string, string)>): Option<(string, string)> {
    match r
    case None => None
    case Some((text, rest)) => Some(([c] + text, rest))
  }

  /** The text up to the closing quote, and what follows it. */
  function Unquote(s: string, quote: char): Option<(string, string)>
    decreases |s|
  {
    if s == "" then None
    else if s[0] != quote then Push(s[0], Unquote(s[1..], quote))
    else if |s| == 1 || s[1] != quote then Some(("", s[1..]))
    else Push(quote, Unquote(s[2..], quote))
  }

  /** What follows "=": the value, and the rest. */
  function ValueOf(s: string): Result<(string, string), Error> {
    if s != "" && s[0] in QUOTES then
      match Unquote(s[1..], s[0])
      case None => Err(UnterminatedQuote)
      case Some(read) => Ok(read)
    else
      var n := Scan(s, VALUE_STOPS);
      Ok((s[..n], s[n..]))
  }

  /** What follows a comma: a key, its value, and a rest that starts with a comma or a colon. */
  function OptionOf(s: string): (r: Result<(string, string, string), Error>)
    ensures r.Ok? ==> r.value.2 != "" && r.value.2[0] in VALUE_STOPS && |r.value.2| < |s|
  {
    var n := Scan(s, KEY_STOPS);
    if n == 0 || n == |s| then Err(InvalidOption)
    else if s[n] != '=' then Ok((s[..n], "true", s[n..]))
    else
      match ValueOf(s[n + 1..])
      case Err(e) => Err(e)
      case Ok((text, rest)) =>
        UnquoteShrinks(s[n + 1..]);
        if rest == "" || rest[0] !in VALUE_STOPS then Err(MissingColon) else Ok((s[..n], text, rest))
  }

  lemma UnquoteShrinks(s: string)
    ensures ValueOf(s).Ok? ==> |ValueOf(s).value.1| <= |s|
  {
    if s != "" && s[0] in QUOTES { UnquoteRest(s[1..], s[0]); }
  }

  lemma {:induction false} UnquoteRest(s: string, quote: char)
    ensures Unquote(s, quote).Some? ==> |Unquote(s, quote).value.1| <= |s|
    decreases |s|
  {
    if s != "" && s[0] != quote {
      UnquoteRest(s[1..], quote);
    } else if |s| > 1 {
      UnquoteRest(s[2..], quote);
    }
  }

  function OptionsOf(s: string, options: map<string, string>): (r: Result<(map<string, string>, string), Error>)
    requires s != "" && s[0] in VALUE_STOPS
    ensures r.Ok? ==> |r.value.1| <= |s| && r.value.1 != "" && r.value.1[0] == ':'
    decreases |s|
  {
    if s[0] != ',' then Ok((options, s))
    else
      match OptionOf(s[1..])
      case Err(e) => Err(e)
      case Ok((key, text, rest)) => OptionsOf(rest, options[key := text])
  }

  function Start(value: string): (n: nat)
    ensures n <= |value|
  {
    if value != "" && value[0] == ':' then 1 else 0
  }

  /** The end of the name; a leading colon belongs to it. */
  function NameEnd(value: string): (n: nat)
    ensures n <= |value| && (n < |value| ==> value[n] in SEPARATORS)
  {
    Start(value) + Scan(value[Start(value)..], SEPARATORS)
  }

  function Parse(value: string): Result<Spec, Error> {
    var n := NameEnd(value);
    if ':' !in value || n == |value| || value[n] == '/' || value[n] == '\\' then Ok(LocalPath)
    else
      match OptionsOf(value[n..], map[])
      case Err(e) => Err(e)
      case Ok((options, rest)) => Ok(Remote(value[..n], options, |value| - |rest|))
  }

  // ---------------------------------------------------------------- the index scanner

  lemma ScanIs(s: string, n: nat, stops: string)
    requires n <= |s| && (forall k :: 0 <= k < n ==> s[k] !in stops) && (n < |s| ==> s[n] in stops)
    ensures Scan(s, stops) == n
  {
  }

  method IndexAny(value: string, from: nat, stops: string) returns (end: nat)
    requires from <= |value|
    ensures from <= end <= |value| && end == from + Scan(value[from..], stops)
  {
    end := from;
    while end < |value| && value[end] !in stops
      invariant from <= end <= |value| && forall k :: from <= k < end ==> value[k] !in stops
    {
      end := end + 1;
    }
    ScanIs(value[from..], end - from, stops);
  }

  /** The loop over a quoted value, from behind the opening quote. */
  method ReadQuoted(value: string, from: nat, quote: char) returns (read: Option<string>, end: nat)
    requires from <= |value|
    ensures from <= end <= |value|
    ensures Unquote(value[from..], quote) == if read.Some? then Some((read.value, value[end..])) else None
  {
    var text := "";
    end := from;
    hide Unquote;
    PrependNothing(Unquote(value[from..], quote));
    while true
      invariant from <= end <= |value|
      invariant Unquote(value[from..], quote) == Prepend(text, Unquote(value[end..], quote))
      decreases |value| - end
    {
      if end == |value| {
        UnquoteEnd(value[end..], quote);
        return None, end;
      }
      UnquoteStep(value, end, quote);
      PrependPush(text, value[end], Unquote(value[end + 1..], quote));
      assert text + "" == text;
      if value[end] == quote {
        end := end + 1;
        if end == |value| || value[end] != quote { return Some(text), end; }
        PrependPush(text, quote, Unquote(value[end + 1..], quote));
      }
      text := text + [value[end]];
      end := end + 1;
    }
  }

  function Prepend(text: string, r: Option<(string, string)>): Option<(string, string)> {
    match r
    case None => None
    case Some((more, rest)) => Some((text + more, rest))
  }

  lemma UnquoteEnd(s: string, quote: char)
    requires s == ""
    ensures Unquote(s, quote).None?
  {
  }

  lemma PrependNothing(r: Option<(string, string)>)
    ensures Prepend("", r) == r
  {
    if r.Some? { assert "" + r.value.0 == r.value.0; }
  }

  lemma PrependPush(text: string, c: char, r: Option<(string, string)>)
    ensures Prepend(text, Push(c, r)) == Prepend(text + [c], r)
  {
    if r.Some? { assert text + ([c] + r.value.0) == text + [c] + r.value.0; }
  }

  lemma UnquoteStep(value: string, end: nat, quote: char)
    requires end < |value|
    ensures Unquote(value[end..], quote) ==
            if value[end] != quote then Push(value[end], Unquote(value[end + 1..], quote))
            else if end + 1 == |value| || value[end + 1] != quote then Some(("", value[end + 1..]))
            else Push(quote, Unquote(value[end + 2..], quote))
  {
    assert value[end..][1..] == value[end + 1..];
    if end + 1 < |value| { assert value[end..][2..] == value[end + 2..]; }
  }

  method ReadValue(value: string, from: nat) returns (read: Result<string, Error>, end: nat)
    requires from <= |value|
    ensures from <= end <= |value|
    ensures read.Ok? ==> ValueOf(value[from..]) == Ok((read.value, value[end..]))
    ensures read.Err? ==> ValueOf(value[from..]) == Err(read.error)
  {
    hide Scan, Unquote, ValueOf;
    ValueCases(value[from..]);
    if from < |value| && value[from] in QUOTES {
      assert value[from..][1..] == value[from + 1..];
      var text;
      text, end := ReadQuoted(value, from + 1, value[from]);
      read := if text.Some? then Ok(text.value) else Err(UnterminatedQuote);
    } else {
      end := IndexAny(value, from, VALUE_STOPS);
      read := Ok(value[from..end]);
      assert value[from..][end - from..] == value[end..] && value[from..][..end - from] == value[from..end];
    }
  }

  lemma ValueCases(s: string)
    ensures s != "" && s[0] in QUOTES ==>
              ValueOf(s) == if Unquote(s[1..], s[0]).Some? then Ok(Unquote(s[1..], s[0]).value) else Err(UnterminatedQuote)
    ensures s == "" || s[0] !in QUOTES ==> ValueOf(s) == Ok((s[..Scan(s, VALUE_STOPS)], s[Scan(s, VALUE_STOPS)..]))
  {
  }

  method ReadOption(value: string, from: nat) returns (r: Result<(string, string), Error>, end: nat)
    requires from <= |value|
    ensures from <= end <= |value|
    ensures r.Ok? ==> OptionOf(value[from..]) == Ok((r.value.0, r.value.1, value[end..]))
    ensures r.Err? ==> OptionOf(value[from..]) == Err(r.error)
  {
    hide Scan, ValueOf;
    end := IndexAny(value, from, KEY_STOPS);
    if end == from || end == |value| { return Err(InvalidOption), end; }
    var key, option := value[from..end], "true";
    assert value[from..][end - from..] == value[end..] && value[from..][..end - from] == key;
    assert value[from..][end - from + 1..] == value[end + 1..];
    if value[end] == '=' {
      var read;
      read, end := ReadValue(value, end + 1);
      if read.Err? { return Err(read.error), end; }
      option := read.value;
    }
    if end == |value| || value[end] !in VALUE_STOPS { return Err(MissingColon), end; }
    r := Ok((key, option));
  }

  /** The loop over the options, from the end of the name. */
  method ReadOptions(value: string, from: nat) returns (r: Result<map<string, string>, Error>, end: nat)
    requires from < |value| && value[from] in VALUE_STOPS
    ensures end <= |value|
    ensures r.Ok? ==> OptionsOf(value[from..], map[]) == Ok((r.value, value[end..]))
    ensures r.Err? ==> OptionsOf(value[from..], map[]) == Err(r.error)
  {
    hide OptionsOf, OptionOf;
    var options := map[];
    end := from;
    while value[end] == ','
      invariant from <= end < |value| && value[end] in VALUE_STOPS
      invariant OptionsOf(value[from..], map[]) == OptionsOf(value[end..], options)
      decreases |value| - end
    {
      OptionsStep(value[end..], options);
      assert value[end..][1..] == value[end + 1..];
      var option;
      option, end := ReadOption(value, end + 1);
      if option.Err? { return Err(option.error), end; }
      options := options[option.value.0 := option.value.1];
    }
    OptionsStep(value[end..], options);
    r := Ok(options);
  }

  lemma OptionsStep(s: string, options: map<string, string>)
    requires s != "" && s[0] in VALUE_STOPS
    ensures s[0] == ':' ==> OptionsOf(s, options) == Ok((options, s))
    ensures s[0] == ',' && OptionOf(s[1..]).Err? ==> OptionsOf(s, options) == Err(OptionOf(s[1..]).error)
    ensures s[0] == ',' && OptionOf(s[1..]).Ok? ==>
              var (key, text, rest) := OptionOf(s[1..]).value;
              OptionsOf(s, options) == OptionsOf(rest, options[key := text])
  {
    hide OptionOf;
  }

  method ParseRemote(value: string) returns (r: Result<Spec, Error>)
    ensures r == Parse(value)
  {
    hide Scan, OptionsOf;
    if ':' !in value { return Ok(LocalPath); }
    var start := if value[0] == ':' then 1 else 0;
    var end := IndexAny(value, start, SEPARATORS);
    if end == |value| || value[end] == '/' || value[end] == '\\' { return Ok(LocalPath); }
    var name := value[..end];
    var options;
    options, end := ReadOptions(value, end);
    r := if options.Ok? then Ok(Remote(name, options.value, end)) else Err(options.error);
  }

  // ---------------------------------------------------------------- printing

  /** A setting with its key alone (which means "true"), with a plain value, or with a quoted one. */
  datatype Value = Bare | Plain(text: string) | Quoted(quote: char, text: string)
  datatype Setting = Setting(key: string, value: Value)

  predicate Free(text: string, stops: string) {
    forall c :: c in text ==> c !in stops
  }

  predicate SettingOk(o: Setting) {
    o.key != "" && Free(o.key, KEY_STOPS) &&
    match o.value
    case Bare => true
    case Plain(text) => Free(text, VALUE_STOPS) && (text != "" ==> text[0] !in QUOTES)
    case Quoted(quote, _) => quote in QUOTES
  }

  /** A name without separators, but for one leading colon; something must tell an empty name from
      the leading colon. */
  predicate NameOk(name: string, settings: seq<Setting>) {
    Free(name[Start(name)..], SEPARATORS) && (name != "" || settings != [])
  }

  function Meaning(v: Value): string {
    match v
    case Bare => "true"
    case Plain(text) => text
    case Quoted(_, text) => text
  }

  function Doubled(text: string, quote: char): string {
    if text == "" then ""
    else (if text[0] == quote then [quote, quote] else [text[0]]) + Doubled(text[1..], quote)
  }

  /** What stands behind the "=". */
  function PrintValue(v: Value): string {
    match v
    case Bare => ""
    case Plain(text) => text
    case Quoted(quote, text) => [quote] + Doubled(text, quote) + [quote]
  }

  function PrintSetting(o: Setting): string {
    if o.value.Bare? then o.key else o.key + "=" + PrintValue(o.value)
  }

  function PrintSettings(settings: seq<Setting>): string {
    if settings == [] then "" else "," + PrintSetting(settings[0]) + PrintSettings(settings[1..])
  }

  /** The options that a list of settings stands for: the last of equal keys wins. */
  function OptionsMap(settings: seq<Setting>, options: map<string, string>): map<string, string> {
    if settings == [] then options
    else OptionsMap(settings[1..], options[settings[0].key := Meaning(settings[0].value)])
  }

  // ---------------------------------------------------------------- printed strings are read back

  /** Ends an option: the next one, or the colon. */
  predicate Ends(tail: string) {
    tail != "" && tail[0] in VALUE_STOPS
  }

  lemma {:induction false} UnquoteDoubled(text: string, quote: char, tail: string)
    requires quote in QUOTES && Ends(tail)
    ensures Unquote(Doubled(text, quote) + [quote] + tail, quote) == Some((text, tail))
  {
    var s := Doubled(text, quote) + [quote] + tail;
    if text == "" {
      assert s == [quote] + tail && s[1..] == tail;
    } else {
      var rest := Doubled(text[1..], quote) + [quote] + tail;
      UnquoteDoubled(text[1..], quote, tail);
      assert text == [text[0]] + text[1..];
      if text[0] == quote {
        assert s == [quote, quote] + rest && s[2..] == rest;
      } else {
        assert s == [text[0]] + rest && s[1..] == rest;
      }
    }
  }

  lemma ScanText(text: string, tail: string, stops: string)
    requires Free(text, stops) && tail != "" && tail[0] in stops
    ensures Scan(text + tail, stops) == |text|
    ensures (text + tail)[..|text|] == text && (text + tail)[|text|..] == tail
  {
    forall k | 0 <= k < |text| ensures (text + tail)[k] !in stops {
      assert text[k] in text;
    }
    ScanIs(text + tail, |text|, stops);
  }

  lemma ValuePrinted(o: Setting, tail: string)
    requires SettingOk(o) && !o.value.Bare? && Ends(tail)
    ensures ValueOf(PrintValue(o.value) + tail) == Ok((Meaning(o.value), tail))
  {
    hide Scan, Unquote, Doubled;
    match o.value {
      case Plain(text) => ScanText(text, tail, VALUE_STOPS);
      case Quoted(quote, text) =>
        var rest := Doubled(text, quote) + [quote] + tail;
        assert PrintValue(o.value) + tail == [quote] + rest && ([quote] + rest)[1..] == rest;
        UnquoteDoubled(text, quote, tail);
    }
  }

  lemma OptionPrinted(o: Setting, tail: string)
    requires SettingOk(o) && Ends(tail)
    ensures OptionOf(PrintSetting(o) + tail) == Ok((o.key, Meaning(o.value), tail))
  {
    hide Scan, ValueOf, PrintValue, Meaning;
    if o.value.Bare? {
      hide Free;
      BareKey(o.key, tail);
      BareMeaning();
    } else {
      var s, after := PrintSetting(o) + tail, "=" + (PrintValue(o.value) + tail);
      assert s == o.key + after;
      ScanText(o.key, after, KEY_STOPS);
      assert s[|o.key| + 1..] == PrintValue(o.value) + tail;
      ValuePrinted(o, tail);
    }
  }

  lemma BareMeaning()
    ensures Meaning(Bare) == "true"
  {
  }

  lemma BareKey(key: string, tail: string)
    requires Free(key, KEY_STOPS) && Ends(tail)
    ensures Scan(key + tail, KEY_STOPS) == |key| && (key + tail)[..|key|] == key && (key + tail)[|key|..] == tail
    ensures (key + tail)[|key|] != '='
  {
    ScanText(key, tail, KEY_STOPS);
  }

  lemma {:induction false} OptionsPrinted(settings: seq<Setting>, tail: string, options: map<string, string>)
    requires (forall o :: o in settings ==> SettingOk(o)) && tail != "" && tail[0] == ':'
    ensures Ends(PrintSettings(settings) + tail)
    ensures OptionsOf(PrintSettings(settings) + tail, options) == Ok((OptionsMap(settings, options), tail))
  {
    hide OptionsOf, OptionOf, SettingOk, PrintSetting, Meaning;
    var s := PrintSettings(settings) + tail;
    if settings == [] {
      assert s == tail;
    } else {
      var o, rest := settings[0], PrintSettings(settings[1..]) + tail;
      OptionsPrinted(settings[1..], tail, options[o.key := Meaning(o.value)]);
      assert s == "," + (PrintSetting(o) + rest) && s[1..] == PrintSetting(o) + rest;
      OptionPrinted(o, rest);
    }
    OptionsStep(s, options);
  }

  lemma NamePrinted(name: string, rest: string)
    requires Free(name[Start(name)..], SEPARATORS) && Ends(rest) && (name == "" ==> rest[0] == ',')
    ensures NameEnd(name + rest) == |name| && (name + rest)[..|name|] == name && (name + rest)[|name|..] == rest
  {
    var k := Start(name);
    assert (name + rest)[k..] == name[k..] + rest;
    ScanText(name[k..], rest, SEPARATORS);
  }

  /** Printing then parsing gives back the name, the options and the place of the colon, whatever
      path follows it. */
  lemma ParsePrinted(name: string, settings: seq<Setting>, path: string)
    requires NameOk(name, settings) && forall o :: o in settings ==> SettingOk(o)
    ensures var head := name + PrintSettings(settings);
            Parse(head + ":" + path) == Ok(Remote(name, OptionsMap(settings, map[]), |head|))
  {
    OptionsPrinted(settings, ":" + path, map[]);
    assert name == "" ==> (PrintSettings(settings) + (":" + path))[0] == ',';
    hide OptionsOf, OptionsMap, SettingOk, PrintSettings, Free, NameOk, Parse;
    ParseHead(name, PrintSettings(settings), path);
  }

  lemma ParseHead(name: string, printed: string, path: string)
    requires Free(name[Start(name)..], SEPARATORS) && Ends(printed + (":" + path))
    requires name == "" ==> (printed + (":" + path))[0] == ','
    requires OptionsOf(printed + (":" + path), map[]).Ok? && OptionsOf(printed + (":" + path), map[]).value.1 == ":" + path
    ensures Parse(name + printed + ":" + path) ==
            Ok(Remote(name, OptionsOf(printed + (":" + path), map[]).value.0, |name + printed|))
  {
    hide OptionsOf, Free, Parse, NameEnd;
    var rest := printed + (":" + path);
    NamePrinted(name, rest);
    assert name + printed + ":" + path == name + rest;
    assert (name + rest)[|name + printed|] == ':';
    ParseAt(name + rest, |name|);
  }

  lemma ParseAt(value: string, n: nat)
    requires NameEnd(value) == n < |value| && value[n] in VALUE_STOPS && ':' in value && OptionsOf(value[n..], map[]).Ok?
    ensures var (options, rest) := OptionsOf(value[n..], map[]).value;
            Parse(value) == Ok(Remote(value[..n], options, |value| - |rest|))
  {
    hide OptionsOf, NameEnd;
  }

  // ---------------------------------------------------------------- and nothing else is accepted

  lemma {:induction false} UnquoteIsDoubled(s: string, quote: char)
    requires Unquote(s, quote).Some?
    ensures var (text, rest) := Unquote(s, quote).value; s == Doubled(text, quote) + [quote] + rest
    decreases |s|
  {
    if s[0] != quote {
      UnquoteIsDoubled(s[1..], quote);
      PushDoubled(s[0], s[1..], quote);
    } else if |s| == 1 || s[1] != quote {
      assert s == [quote] + s[1..];
    } else {
      UnquoteIsDoubled(s[2..], quote);
      PushDoubled(quote, s[2..], quote);
      assert s == [quote, quote] + s[2..];
    }
  }

  lemma PushDoubled(c: char, s: string, quote: char)
    requires Unquote(s, quote).Some?
    ensures Doubled([c] + Unquote(s, quote).value.0, quote) ==
            (if c == quote then [quote, quote] else [c]) + Doubled(Unquote(s, quote).value.0, quote)
  {
    assert ([c] + Unquote(s, quote).value.0)[1..] == Unquote(s, quote).value.0;
  }

  lemma ValueIsPrinted(s: string) returns (v: Value)
    requires ValueOf(s).Ok?
    ensures !v.Bare? && SettingOk(Setting("k", v)) && Meaning(v) == ValueOf(s).value.0
    ensures s == PrintValue(v) + ValueOf(s).value.1
  {
    ValueCases(s);
    hide Unquote, Scan, ValueOf, Doubled;
    if s != "" && s[0] in QUOTES {
      UnquoteIsDoubled(s[1..], s[0]);
      v := Quoted(s[0], Unquote(s[1..], s[0]).value.0);
      assert s == [s[0]] + s[1..];
    } else {
      v := Plain(s[..Scan(s, VALUE_STOPS)]);
    }
  }

  lemma OptionIsPrinted(s: string) returns (o: Setting)
    requires OptionOf(s).Ok?
    ensures SettingOk(o) && o.key == OptionOf(s).value.0 && Meaning(o.value) == OptionOf(s).value.1
    ensures s == PrintSetting(o) + OptionOf(s).value.2
  {
    hide Scan, ValueOf, PrintValue, Meaning;
    var n := Scan(s, KEY_STOPS);
    var key, after := s[..n], s[n + 1..];
    if s[n] != '=' {
      o := Setting(key, Bare);
      BareMeaning();
    } else {
      var v := ValueIsPrinted(after);
      o := Setting(key, v);
      assert s == key + "=" + after;
    }
  }

  lemma {:induction false} OptionsArePrinted(s: string, options: map<string, string>) returns (settings: seq<Setting>)
    requires Ends(s) && OptionsOf(s, options).Ok?
    ensures forall o :: o in settings ==> SettingOk(o)
    ensures OptionsMap(settings, options) == OptionsOf(s, options).value.0
    ensures s == PrintSettings(settings) + OptionsOf(s, options).value.1
    decreases |s|
  {
    hide OptionsOf, OptionOf, SettingOk, PrintSetting, Meaning;
    OptionsStep(s, options);
    if s[0] != ',' {
      settings := [];
      assert s == "" + s;
    } else {
      var o := OptionIsPrinted(s[1..]);
      var (key, text, rest) := OptionOf(s[1..]).value;
      var more := OptionsArePrinted(rest, options[key := text]);
      settings := [o] + more;
      assert settings[1..] == more;
      assert s == "," + s[1..];
    }
  }

  /** Every remote that is accepted is a printed one: the scanner reads exactly this grammar. */
  lemma ParsedIsPrinted(value: string) returns (settings: seq<Setting>)
    requires Parse(value).Ok? && Parse(value).value.Remote?
    ensures var r := Parse(value).value;
            && NameOk(r.name, settings) && (forall o :: o in settings ==> SettingOk(o))
            && r.colon < |value| && value[..r.colon] == r.name + PrintSettings(settings) && value[r.colon] == ':'
            && r.options == OptionsMap(settings, map[])
  {
    var n := NameEnd(value);
    ParsedAt(value);
    NameIsFree(value, n);
    hide OptionsOf, OptionsMap, Scan, SettingOk, NameEnd, Free, Start, Parse;
    settings := OptionsArePrinted(value[n..], map[]);
    assert settings == [] ==> value[n..][0] == ':';
    hide PrintSettings;
    HeadOf(value, n, PrintSettings(settings), OptionsOf(value[n..], map[]).value.1);
  }

  lemma ParsedAt(value: string)
    requires Parse(value).Ok? && Parse(value).value.Remote?
    ensures NameEnd(value) < |value| && value[NameEnd(value)] in VALUE_STOPS && OptionsOf(value[NameEnd(value)..], map[]).Ok?
    ensures var (options, rest) := OptionsOf(value[NameEnd(value)..], map[]).value;
            Parse(value) == Ok(Remote(value[..NameEnd(value)], options, |value| - |rest|))
  {
    hide OptionsOf, NameEnd;
  }

  lemma NameIsFree(value: string, n: nat)
    requires NameEnd(value) == n < |value| && value[n] in VALUE_STOPS
    ensures Free(value[..n][Start(value[..n])..], SEPARATORS) && (value[..n] == "" ==> value[n] == ',')
  {
  }

  lemma HeadOf(value: string, n: nat, printed: string, rest: string)
    requires n <= |value| && value[n..] == printed + rest && rest != ""
    ensures value[..|value| - |rest|] == value[..n] + printed && value[|value| - |rest|] == rest[0]
  {
    assert value == value[..n] + value[n..];
  }

  // ---------------------------------------------------------------- local paths and errors

  /** Past a leading colon, a slash comes before every comma and every other colon. */
  predicate SlashFirst(value: string) {
    forall k :: Start(value) <= k < |value| && value[k] in VALUE_STOPS ==> SlashBefore(value, k)
  }

  predicate SlashBefore(value: string, k: nat)
    requires k <= |value|
  {
    exists j :: Start(value) <= j < k && value[j] in "/\\"
  }

  /** A value is taken for a local path exactly if it has no colon, or a slash comes first. */
  lemma LocalPathIff(value: string)
    ensures Parse(value) == Ok(LocalPath) <==> ':' !in value || SlashFirst(value)
  {
    hide OptionsOf;
    var n := NameEnd(value);
    FirstSeparator(value);
    if n < |value| && value[n] in "/\\" {
      forall k | Start(value) <= k < |value| && value[k] in VALUE_STOPS ensures SlashBefore(value, k) {
        assert value[k] in SEPARATORS && n < k;
      }
    }
    if n < |value| && value[n] in VALUE_STOPS { assert !SlashBefore(value, n); }
  }

  lemma FirstSeparator(value: string)
    ensures Start(value) <= NameEnd(value)
    ensures forall k :: Start(value) <= k < NameEnd(value) ==> value[k] !in SEPARATORS
  {
    var rest := value[Start(value)..];
    forall k | Start(value) <= k < NameEnd(value) ensures value[k] !in SEPARATORS {
      assert rest[k - Start(value)] == value[k];
    }
  }

  /** A key, and a quoted value whose quotes are all doubled, so that none closes it. */
  predicate IsOpen(bad: string, key: string, quote: char, text: string) {
    key != "" && Free(key, KEY_STOPS) && quote in QUOTES && bad == key + ("=" + ([quote] + Doubled(text, quote)))
  }

  lemma {:induction false} DoubledIsOpen(text: string, quote: char)
    ensures Unquote(Doubled(text, quote), quote).None?
  {
    if text != "" {
      DoubledIsOpen(text[1..], quote);
      var s, rest := Doubled(text, quote), Doubled(text[1..], quote);
      if text[0] == quote { assert s == [quote, quote] + rest && s[2..] == rest; } else { assert s == [text[0]] + rest && s[1..] == rest; }
    }
  }

  lemma {:induction false} OpenIsDoubled(s: string, quote: char) returns (text: string)
    requires Unquote(s, quote).None?
    ensures s == Doubled(text, quote)
    decreases |s|
  {
    if s == "" {
      text := "";
    } else if s[0] != quote {
      var more := OpenIsDoubled(s[1..], quote);
      text := [s[0]] + more;
      assert text[1..] == more;
    } else {
      var more := OpenIsDoubled(s[2..], quote);
      text := [quote] + more;
      assert text[1..] == more && s == [quote, quote] + s[2..];
    }
  }

  lemma NoOption(bad: string)
    ensures OptionOf(bad) == Err(InvalidOption) <==> bad == "" || bad[0] in KEY_STOPS || Free(bad, KEY_STOPS)
  {
    var n := Scan(bad, KEY_STOPS);
    assert n < |bad| ==> bad[n] in bad;
    hide ValueOf;
  }

  lemma OpenOption(bad: string) returns (text: string)
    requires OptionOf(bad) == Err(UnterminatedQuote)
    ensures var n := Scan(bad, KEY_STOPS); n + 1 < |bad| && IsOpen(bad, bad[..n], bad[n + 1], text)
  {
    hide Unquote, Doubled;
    var n := Scan(bad, KEY_STOPS);
    var after := bad[n + 1..];
    text := OpenIsDoubled(after[1..], after[0]);
    assert bad == bad[..n] + ("=" + ([after[0]] + after[1..]));
  }

  lemma OpenIsError(bad: string, key: string, quote: char, text: string)
    requires IsOpen(bad, key, quote, text)
    ensures OptionOf(bad) == Err(UnterminatedQuote)
  {
    hide Unquote, Doubled, Scan, Free;
    var behind := [quote] + Doubled(text, quote);
    ScanText(key, "=" + behind, KEY_STOPS);
    assert bad[|key| + 1..] == behind && behind[1..] == Doubled(text, quote);
    DoubledIsOpen(text, quote);
  }

  /** The errors of one option: no key, or nothing behind it; a quote that is not closed; and in all
      other cases no comma or colon behind the value. */
  lemma OptionErrors(bad: string)
    ensures OptionOf(bad) == Err(InvalidOption) <==> bad == "" || bad[0] in KEY_STOPS || Free(bad, KEY_STOPS)
    ensures OptionOf(bad) == Err(UnterminatedQuote) <==> exists key, quote, text :: IsOpen(bad, key, quote, text)
  {
    hide OptionOf, IsOpen, Free;
    NoOption(bad);
    if OptionOf(bad) == Err(UnterminatedQuote) { var text := OpenOption(bad); }
    if key, quote, text :| IsOpen(bad, key, quote, text) { OpenIsError(bad, key, quote, text); }
  }

  lemma {:induction false} OptionsFail(settings: seq<Setting>, bad: string, options: map<string, string>)
    requires (forall o :: o in settings ==> SettingOk(o)) && OptionOf(bad).Err?
    ensures Ends(PrintSettings(settings) + ("," + bad))
    ensures OptionsOf(PrintSettings(settings) + ("," + bad), options) == Err(OptionOf(bad).error)
  {
    hide OptionsOf, OptionOf, SettingOk, PrintSetting, Meaning;
    var s := PrintSettings(settings) + ("," + bad);
    if settings == [] {
      assert s == "," + bad && s[1..] == bad;
    } else {
      var o, rest := settings[0], PrintSettings(settings[1..]) + ("," + bad);
      OptionsFail(settings[1..], bad, options[o.key := Meaning(o.value)]);
      assert s == "," + (PrintSetting(o) + rest) && s[1..] == PrintSetting(o) + rest;
      OptionPrinted(o, rest);
    }
    OptionsStep(s, options);
  }

  /** The first option with an error fails the whole value, if it has a colon at all. */
  lemma ErrorPrinted(name: string, settings: seq<Setting>, bad: string)
    requires Free(name[Start(name)..], SEPARATORS) && (forall o :: o in settings ==> SettingOk(o)) && OptionOf(bad).Err?
    requires ':' in name + (PrintSettings(settings) + ("," + bad))
    ensures Parse(name + (PrintSettings(settings) + ("," + bad))) == Err(OptionOf(bad).error)
  {
    hide OptionsOf, OptionOf, SettingOk, Free, NameEnd, PrintSetting;
    var rest := PrintSettings(settings) + ("," + bad);
    OptionsFail(settings, bad, map[]);
    assert rest[0] == ',';
    NamePrinted(name, rest);
  }
}
