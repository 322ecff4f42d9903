/**
 * The command line of a `launch:` location, split into arguments by shell quoting.  Clients that
 * split differently would not find each other's workers.
 */
module LaunchArgv {
  import opened Wrappers

  datatype State = Default | InDouble | InSingle

  datatype Lexer = Lexer(out: seq<string>, token: string, hasToken: bool, state: State)

  const START := Lexer([], "", false, Default)

  predicate Blank(c: char) {
    c == ' ' || c == '\t' || c == '\n'
  }

  /** The characters a backslash escapes between double quotes. */
  predicate Escapable(c: char) {
    c == '"' || c == '\\' || c == '$' || c == '`' || c == '\n'
  }

  function Push(l: Lexer, c: char): Lexer {
    l.(token := l.token + [c], hasToken := true)
  }

  /** The token in progress is complete. */
  function Flush(l: Lexer): Lexer {
    if l.hasToken then l.(out := l.out + [l.token], token := "", hasToken := false) else l
  }

  /** The characters taken in one turn of the loop. */
  function Taken(l: Lexer, s: string, windows: bool): nat
    requires s != ""
  {
    if s[0] != '\\' || windows || |s| == 1 then 1
    else if l.state == Default || (l.state == InDouble && Escapable(s[1])) then 2
    else 1
  }

  /** A backslash outside quotes needs a character after it. */
  predicate Stuck(l: Lexer, s: string, windows: bool) {
    s == "\\" && l.state == Default && !windows
  }

  function Turn(l: Lexer, s: string, windows: bool): Lexer
    requires s != "" && !Stuck(l, s, windows)
  {
    var c := s[0];
    match l.state
    case Default =>
      if Blank(c) then Flush(l)
      else if c == '"' then l.(state := InDouble, hasToken := true)
      else if c == '\'' then l.(state := InSingle, hasToken := true)
      else if c == '\\' && !windows then Push(l, s[1])
      else Push(l, c)
    case InDouble =>
      if c == '"' then l.(state := Default)
      else if c == '\\' && |s| > 1 && !windows && Escapable(s[1]) then l.(token := l.token + [s[1]])
      else l.(token := l.token + [c])
    case InSingle =>
      if c == '\'' then l.(state := Default) else l.(token := l.token + [c])
  }

  /** Reads the whole text, unless it gets stuck. */
  function Scan(l: Lexer, s: string, windows: bool): Option<Lexer>
    decreases |s|
  {
    if s == "" then Some(l)
    else if Stuck(l, s, windows) then None
    else Scan(Turn(l, s, windows), s[Taken(l, s, windows)..], windows)
  }

  /** The words of a text; none when it ends in an escape or inside quotes. */
  function Words(s: string, windows: bool): Option<seq<string>> {
    var l := Scan(START, s, windows);
    if l.None? || l.value.state != Default then None else Some(Flush(l.value).out)
  }

  /** The arguments of a location: its words, of which there must be one. */
  function Arguments(s: string, windows: bool): Option<seq<string>> {
    if Words(s, windows) == Some([]) then None else Words(s, windows)
  }

  method ParseLaunchArgv(payload: string, windows: bool) returns (r: Result<seq<string>>)
    ensures r.Ok? <==> Arguments(payload, windows).Some?
    ensures r.Ok? ==> r.value == Arguments(payload, windows).value && r.value != []
  {
    var out: seq<string> := [];
    var token: string, hasToken, state := "", false, Default;
    var i := 0;
    while i < |payload|
      invariant 0 <= i <= |payload|
      invariant Scan(Lexer(out, token, hasToken, state), payload[i..], windows) == Scan(START, payload, windows)
    {
      ghost var l, rest := Lexer(out, token, hasToken, state), payload[i..];
      var c := payload[i];
      match state {
        case Default =>
          if Blank(c) {
            if hasToken {
              out, token, hasToken := out + [token], "", false;
            }
          } else if c == '"' {
            state, hasToken := InDouble, true;
          } else if c == '\'' {
            state, hasToken := InSingle, true;
          } else if c == '\\' && !windows {
            if i + 1 >= |payload| {
              assert rest == "\\";
              return Err("trailing backslash in LOCATION argv");
            }
            i := i + 1;
            token, hasToken := token + [payload[i]], true;
          } else {
            token, hasToken := token + [c], true;
          }
        case InDouble =>
          if c == '"' {
            state := Default;
          } else if c == '\\' && i + 1 < |payload| && !windows {
            if Escapable(payload[i + 1]) {
              token := token + [payload[i + 1]];
              i := i + 1;
            } else {
              token := token + ['\\'];
            }
          } else {
            token := token + [c];
          }
        case InSingle =>
          if c == '\'' {
            state := Default;
          } else {
            token := token + [c];
          }
      }
      i := i + 1;
      assert Lexer(out, token, hasToken, state) == Turn(l, rest, windows)
             && payload[i..] == rest[Taken(l, rest, windows)..];
    }
    if state != Default {
      return Err("unterminated quote in LOCATION argv");
    }
    if hasToken {
      out := out + [token];
    }
    if out == [] {
      return Err("LOCATION has an empty argv");
    }
    return Ok(out);
  }

  // ---------------------------------------------------------- the homomorphism

  /** Text after a point where no quote is open is read as if the text before it had been read alone. */
  lemma {:induction false} ScanAppend(l: Lexer, a: string, b: string, windows: bool)
    requires Scan(l, a, windows).Some? && Scan(l, a, windows).value.state == Default
    ensures Scan(l, a + b, windows) == Scan(Scan(l, a, windows).value, b, windows)
    decreases |a|
  {
    if a == "" {
      assert a + b == b;
    } else {
      SameTurn(l, a, b, windows);
      var n := Taken(l, a, windows);
      assert (a + b)[n..] == a[n..] + b;
      assert Scan(l, a + b, windows) == Scan(Turn(l, a, windows), a[n..] + b, windows);
      ScanAppend(Turn(l, a, windows), a[n..], b, windows);
    }
  }

  /** More text changes a turn only at a final backslash, and that leaves a quote open. */
  lemma SameTurn(l: Lexer, a: string, b: string, windows: bool)
    requires a != "" && Scan(l, a, windows).Some? && Scan(l, a, windows).value.state == Default
    ensures !Stuck(l, a + b, windows) && Taken(l, a + b, windows) == Taken(l, a, windows)
            && Turn(l, a + b, windows) == Turn(l, a, windows)
  {
    if |a| == 1 && a[0] == '\\' && l.state != Default {
      assert Scan(Turn(l, a, windows), a[1..], windows) == Some(Turn(l, a, windows));
    }
  }

  function Prefixed(p: seq<string>, l: Lexer): Lexer {
    l.(out := p + l.out)
  }

  /** Finished tokens never matter to what is read after them. */
  lemma {:induction false} ScanPrefixed(p: seq<string>, l: Lexer, s: string, windows: bool)
    ensures Scan(Prefixed(p, l), s, windows) ==
            if Scan(l, s, windows).None? then None else Some(Prefixed(p, Scan(l, s, windows).value))
    decreases |s|
  {
    if s != "" && !Stuck(l, s, windows) {
      assert p + l.out + [l.token] == p + (l.out + [l.token]);
      assert Turn(Prefixed(p, l), s, windows) == Prefixed(p, Turn(l, s, windows));
      ScanPrefixed(p, Turn(l, s, windows), s[Taken(l, s, windows)..], windows);
    }
  }

  lemma {:induction false} NoTokenIsEmpty(l: Lexer, s: string, windows: bool)
    requires (!l.hasToken ==> l.token == "") && (l.state != Default ==> l.hasToken)
    ensures Scan(l, s, windows).Some? ==>
              (!Scan(l, s, windows).value.hasToken ==> Scan(l, s, windows).value.token == "")
    decreases |s|
  {
    if s != "" && !Stuck(l, s, windows) {
      NoTokenIsEmpty(Turn(l, s, windows), s[Taken(l, s, windows)..], windows);
    }
  }

  lemma SkipsBlank(l: Lexer, blank: char, b: string, windows: bool)
    requires l.state == Default && (blank == ' ' || blank == '\t' || blank == '\n')
    ensures Scan(l, [blank] + b, windows) == Scan(Flush(l), b, windows)
  {
    var s := [blank] + b;
    assert s[0] == blank && s[1..] == b;
    assert Turn(l, s, windows) == Flush(l) && Taken(l, s, windows) == 1 && !Stuck(l, s, windows);
  }

  /** Reading two texts with a space, a tab or a newline between them reads one and then the other. */
  lemma WordsConcatenate(a: string, blank: char, b: string, windows: bool)
    requires Words(a, windows).Some? && (blank == ' ' || blank == '\t' || blank == '\n')
    ensures Words(a + [blank] + b, windows) ==
            if Words(b, windows).None? then None else Some(Words(a, windows).value + Words(b, windows).value)
  {
    var l := Scan(START, a, windows).value;
    NoTokenIsEmpty(START, a, windows);
    assert a + [blank] + b == a + ([blank] + b);
    ScanAppend(START, a, [blank] + b, windows);
    SkipsBlank(l, blank, b, windows);
    assert Flush(l) == Prefixed(Flush(l).out, START);
    ScanPrefixed(Flush(l).out, START, b, windows);
    if Words(b, windows).Some? {
      FlushPrefixed(Flush(l).out, Scan(START, b, windows).value);
    }
  }

  lemma FlushPrefixed(p: seq<string>, l: Lexer)
    ensures Flush(Prefixed(p, l)).out == p + Flush(l).out
  {
  }

  /** Splitting is a homomorphism: a blank between two command lines joins their arguments. */
  lemma ArgumentsConcatenate(a: string, b: string, windows: bool)
    requires Arguments(a, windows).Some? && Arguments(b, windows).Some?
    ensures Arguments(a + " " + b, windows) == Some(Arguments(a, windows).value + Arguments(b, windows).value)
  {
    WordsConcatenate(a, ' ', b, windows);
  }

  // ---------------------------------------------------------------- the quoting

  /** One character inside single quotes; a single quote is put between double quotes instead. */
  function QuoteChar(c: char): string {
    if c == '\'' then "'\"'\"'" else [c]
  }

  function QuoteBody(s: string): string {
    if s == "" then "" else QuoteChar(s[0]) + QuoteBody(s[1..])
  }

  function Quoted(s: string): string {
    "'" + QuoteBody(s) + "'"
  }

  function QuotedLine(argv: seq<string>): string {
    if argv == [] then "" else if |argv| == 1 then Quoted(argv[0]) else Quoted(argv[0]) + " " + QuotedLine(argv[1..])
  }

  lemma ScanQuoteMark(l: Lexer, rest: string, windows: bool)
    requires l.state == InSingle && l.hasToken
    ensures Scan(l, "'\"'\"'" + rest, windows) == Scan(l.(token := l.token + ['\'']), rest, windows)
  {
    var s := "'\"'\"'" + rest;
    assert s[1..] == "\"'\"'" + rest;
    assert s[1..][1..] == "'\"'" + rest;
    assert s[1..][1..][1..] == "\"'" + rest;
    assert s[1..][1..][1..][1..] == "'" + rest;
    assert s[1..][1..][1..][1..][1..] == rest;
    var l1 := l.(state := Default);
    var l2 := l.(state := InDouble);
    var l3 := l2.(token := l.token + ['\'']);
    var l4 := l3.(state := Default);
    assert Scan(l, s, windows) == Scan(l1, s[1..], windows);
    assert Scan(l1, s[1..], windows) == Scan(l2, s[1..][1..], windows);
    assert Scan(l2, s[1..][1..], windows) == Scan(l3, s[1..][1..][1..], windows);
    assert Scan(l3, s[1..][1..][1..], windows) == Scan(l4, s[1..][1..][1..][1..], windows);
  }

  lemma ScanQuoteChar(l: Lexer, c: char, rest: string, windows: bool)
    requires l.state == InSingle && l.hasToken
    ensures Scan(l, QuoteChar(c) + rest, windows) == Scan(l.(token := l.token + [c]), rest, windows)
  {
    if c == '\'' {
      ScanQuoteMark(l, rest, windows);
    } else {
      assert ([c] + rest)[1..] == rest;
    }
  }

  lemma {:induction false} ScanQuoteBody(l: Lexer, s: string, windows: bool)
    requires l.state == InSingle && l.hasToken
    ensures Scan(l, QuoteBody(s) + "'", windows) == Some(l.(token := l.token + s, state := Default))
    decreases |s|
  {
    if s == "" {
      assert QuoteBody(s) + "'" == "'";
      assert l.token + s == l.token;
    } else {
      var rest := QuoteBody(s[1..]) + "'";
      var next := l.(token := l.token + [s[0]]);
      assert QuoteBody(s) + "'" == QuoteChar(s[0]) + rest;
      ScanQuoteChar(l, s[0], rest, windows);
      ScanQuoteBody(next, s[1..], windows);
      assert l.token + [s[0]] + s[1..] == l.token + s;
    }
  }

  lemma WordsOfQuoted(s: string, windows: bool)
    ensures Words(Quoted(s), windows) == Some([s])
  {
    var rest := QuoteBody(s) + "'";
    assert Quoted(s) == "'" + rest && ("'" + rest)[1..] == rest;
    var l := Lexer([], "", true, InSingle);
    assert Scan(START, Quoted(s), windows) == Scan(l, rest, windows);
    ScanQuoteBody(l, s, windows);
    assert "" + s == s && [] + [s] == [s];
    assert Scan(START, Quoted(s), windows) == Some(Lexer([], s, true, Default));
  }

  /** Any arguments, whatever their characters, are the split of their quoted line. */
  lemma {:induction false} QuotedLineRoundTrip(argv: seq<string>, windows: bool)
    requires argv != []
    ensures Arguments(QuotedLine(argv), windows) == Some(argv)
  {
    WordsOfQuoted(argv[0], windows);
    if |argv| == 1 {
      assert argv == [argv[0]];
    } else {
      QuotedLineRoundTrip(argv[1..], windows);
      ArgumentsConcatenate(Quoted(argv[0]), QuotedLine(argv[1..]), windows);
      assert [argv[0]] + argv[1..] == argv;
    }
  }

  // ------------------------------------------------------ the other two quotings

  /** A backslash before every character. */
  function Backslashed(s: string): string {
    if s == "" then "" else ['\\', s[0]] + Backslashed(s[1..])
  }

  lemma ScanBackslashChar(l: Lexer, c: char, rest: string)
    requires l.state == Default
    ensures Scan(l, ['\\', c] + rest, false) == Scan(Push(l, c), rest, false)
  {
    assert (['\\', c] + rest)[2..] == rest;
  }

  lemma TokenJoin(token: string, s: string)
    requires s != ""
    ensures token + [s[0]] + s[1..] == token + s
  {
  }

  lemma {:induction false} ScanBackslashed(l: Lexer, s: string)
    requires l.state == Default && (s == "" ==> l.hasToken)
    ensures Scan(l, Backslashed(s), false) == Some(l.(token := l.token + s, hasToken := true))
    decreases |s|
  {
    if s == "" {
      assert l.token + s == l.token;
    } else {
      ScanBackslashChar(l, s[0], Backslashed(s[1..]));
      ScanBackslashed(Push(l, s[0]), s[1..]);
      TokenJoin(l.token, s);
    }
  }

  /** Off Windows a backslash takes any character as it is. */
  lemma BackslashedRoundTrip(s: string)
    requires s != ""
    ensures Words(Backslashed(s), false) == Some([s])
  {
    ScanBackslashed(START, s);
    assert "" + s == s && [] + [s] == [s];
  }

  function DoubleChar(c: char): string {
    if Escapable(c) then ['\\', c] else [c]
  }

  /** Between double quotes: a backslash before the characters that need one. */
  function DoubleBody(s: string): string {
    if s == "" then "" else DoubleChar(s[0]) + DoubleBody(s[1..])
  }

  lemma ScanDoubleChar(l: Lexer, c: char, rest: string)
    requires l.state == InDouble
    ensures Scan(l, DoubleChar(c) + rest, false) == Scan(l.(token := l.token + [c]), rest, false)
  {
    if Escapable(c) {
      assert (['\\', c] + rest)[2..] == rest;
    } else {
      assert ([c] + rest)[1..] == rest;
    }
  }

  lemma DoubleHead(s: string)
    requires s != ""
    ensures DoubleBody(s) + "\"" == DoubleChar(s[0]) + (DoubleBody(s[1..]) + "\"")
  {
  }

  lemma ScanDoubleEnd(l: Lexer, s: string)
    requires l.state == InDouble && s == ""
    ensures Scan(l, DoubleBody(s) + "\"", false) == Some(l.(token := l.token + s, state := Default))
  {
    assert DoubleBody(s) + "\"" == "\"" && l.token + s == l.token;
  }

  lemma {:induction false} ScanDoubleBody(l: Lexer, s: string)
    requires l.state == InDouble
    ensures Scan(l, DoubleBody(s) + "\"", false) == Some(l.(token := l.token + s, state := Default))
    decreases |s|
  {
    if s == "" {
      ScanDoubleEnd(l, s);
    } else {
      DoubleHead(s);
      ScanDoubleChar(l, s[0], DoubleBody(s[1..]) + "\"");
      ScanDoubleBody(l.(token := l.token + [s[0]]), s[1..]);
      TokenJoin(l.token, s);
    }
  }

  /** Off Windows every string, empty ones included, is the word its double-quoted form spells. */
  lemma DoubleQuotedRoundTrip(s: string)
    ensures Words("\"" + DoubleBody(s) + "\"", false) == Some([s])
  {
    var rest := DoubleBody(s) + "\"";
    assert "\"" + DoubleBody(s) + "\"" == "\"" + rest && ("\"" + rest)[1..] == rest;
    var l := Lexer([], "", true, InDouble);
    assert Scan(START, "\"" + rest, false) == Scan(l, rest, false);
    ScanDoubleBody(l, s);
    assert "" + s == s && [] + [s] == [s];
  }

  /** No space, tab, newline or quote. */
  predicate Plain(s: string) {
    forall i | 0 <= i < |s| :: s[i] != ' ' && s[i] != '\t' && s[i] != '\n' && s[i] != '"' && s[i] != '\''
  }

  lemma {:induction false} ScanPlain(l: Lexer, s: string)
    requires l.state == Default && s != "" && Plain(s)
    ensures Scan(l, s, true) == Some(l.(token := l.token + s, hasToken := true))
    decreases |s|
  {
    assert l.token + [s[0]] + s[1..] == l.token + s;
    assert Scan(l, s, true) == Scan(Push(l, s[0]), s[1..], true);
    if s[1..] == "" {
      assert l.token + [s[0]] == l.token + s;
    } else {
      ScanPlain(Push(l, s[0]), s[1..]);
    }
  }

  /** On Windows a backslash is an ordinary character, so paths survive. */
  lemma WindowsPathsSurvive(s: string)
    requires s != "" && Plain(s)
    ensures Words(s, true) == Some([s])
  {
    ScanPlain(START, s);
    assert "" + s == s && [] + [s] == [s];
  }

  lemma {:induction false} ScanUnquoted(l: Lexer, s: string, windows: bool)
    requires l.state == Default && s != "" && Plain(s) && '\\' !in s
    ensures Scan(l, s, windows) == Some(l.(token := l.token + s, hasToken := true))
    decreases |s|
  {
    assert l.token + [s[0]] + s[1..] == l.token + s;
    assert Scan(l, s, windows) == Scan(Push(l, s[0]), s[1..], windows);
    if s[1..] == "" {
      assert l.token + [s[0]] == l.token + s;
    } else {
      ScanUnquoted(Push(l, s[0]), s[1..], windows);
    }
  }

  /** Text with no blank, quote or backslash is one word on every platform, whatever else is in it. */
  lemma UnquotedIsOneWord(s: string, windows: bool)
    requires s != "" && Plain(s) && '\\' !in s
    ensures Words(s, windows) == Some([s])
  {
    ScanUnquoted(START, s, windows);
    assert "" + s == s && [] + [s] == [s];
  }

  /**
   * Between double quotes, off Windows, a backslash goes before a quote, a backslash, a dollar sign, a
   * backquote or a newline, and stays before anything else; on Windows it always stays.
   */
  lemma BackslashInDouble(c: char, windows: bool)
    requires c != '"' || !windows
    ensures Words(['"', '\\', c, '"'], windows) ==
            Some([if !windows && (c == '"' || c == '\\' || c == '$' || c == '`' || c == '\n') then [c]
                  else ['\\', c]])
  {
    var s := ['"', '\\', c, '"'];
    var l := Lexer([], "", true, InDouble);
    assert s[1..] == ['\\', c, '"'] && s[1..][1..] == [c, '"'] && s[1..][2..] == ['"'] && s[1..][1..][1..] == ['"'];
    assert Scan(START, s, windows) == Scan(l, s[1..], windows);
    if !windows && Escapable(c) {
      var l2 := l.(token := [c]);
      assert "" + [c] == [c];
      assert Scan(l, s[1..], windows) == Scan(l2, ['"'], windows);
      ScanClosing(l2, windows);
      OneWord(s, [c], windows);
    } else {
      var l2, l3 := l.(token := ['\\']), l.(token := ['\\', c]);
      assert "" + ['\\'] == ['\\'] && ['\\'] + [c] == ['\\', c];
      assert Scan(l, s[1..], windows) == Scan(l2, [c, '"'], windows);
      assert Scan(l2, [c, '"'], windows) == Scan(l3, ['"'], windows);
      ScanClosing(l3, windows);
      OneWord(s, ['\\', c], windows);
    }
  }

  lemma OneWord(s: string, token: string, windows: bool)
    requires Scan(START, s, windows) == Some(Lexer([], token, true, Default))
    ensures Words(s, windows) == Some([token])
  {
    assert [] + [token] == [token];
  }

  lemma ScanClosing(l: Lexer, windows: bool)
    requires l.state == InDouble
    ensures Scan(l, ['"'], windows) == Some(l.(state := Default))
  {
    assert ['"'][1..] == [];
  }

  // ------------------------------------------------------------------- the errors

  /** A backslash at the very end, outside quotes, is refused off Windows. */
  lemma TrailingBackslashRefused(a: string)
    requires Words(a, false).Some?
    ensures Words(a + "\\", false) == None
  {
    ScanAppend(START, a, "\\", false);
  }

  lemma {:induction false} ScanOpenSingle(l: Lexer, s: string, windows: bool)
    requires l.state == InSingle && '\'' !in s
    ensures Scan(l, s, windows).Some? && Scan(l, s, windows).value.state == InSingle
    decreases |s|
  {
    if s != "" {
      ScanOpenSingle(Turn(l, s, windows), s[1..], windows);
    }
  }

  lemma OpensSingle(l: Lexer, s: string, windows: bool)
    requires l.state == Default
    ensures Scan(l, "'" + s, windows) == Scan(l.(state := InSingle, hasToken := true), s, windows)
  {
    var t := "'" + s;
    assert t[0] == '\'' && t[1..] == s;
    assert Turn(l, t, windows) == l.(state := InSingle, hasToken := true);
    assert Taken(l, t, windows) == 1 && !Stuck(l, t, windows);
  }

  /** A single quote that nothing closes is refused. */
  lemma OpenQuoteRefused(a: string, s: string, windows: bool)
    requires Words(a, windows).Some? && '\'' !in s
    ensures Words(a + ("'" + s), windows) == None
  {
    var l := Scan(START, a, windows).value;
    ScanAppend(START, a, "'" + s, windows);
    OpensSingle(l, s, windows);
    ScanOpenSingle(l.(state := InSingle, hasToken := true), s, windows);
  }

  lemma {:induction false} ScanBlanks(s: string, windows: bool)
    requires forall i | 0 <= i < |s| :: s[i] == ' ' || s[i] == '\t' || s[i] == '\n'
    ensures Scan(START, s, windows) == Some(START)
  {
    if s != "" {
      ScanBlanks(s[1..], windows);
    }
  }

  /** A command line of nothing but blanks has no arguments, and is refused. */
  lemma BlankLineRefused(s: string, windows: bool)
    requires forall i | 0 <= i < |s| :: s[i] == ' ' || s[i] == '\t' || s[i] == '\n'
    ensures Arguments(s, windows) == None
  {
    ScanBlanks(s, windows);
  }
}
