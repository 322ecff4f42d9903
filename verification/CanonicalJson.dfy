/**
 * The text whose hash names a worker: a canonical JSON object with the command, the working
 * directory and the environment, strings in the form of section 7 of RFC 8259.
 *
 * The environment is its entries in key order, as a sorted map yields them; two sorted maps are
 * equal exactly when these sequences are.
 */
module CanonicalJson {
  import opened Wrappers

  type Entry = (string, string)

  // ------------------------------------------------------------- the writer

  function Hex(n: int): char
    requires 0 <= n < 16
  {
    if n < 10 then '0' + n as char else 'a' + (n - 10) as char
  }

  function Escape(c: char): string {
    if c == '"' then "\\\""
    else if c == '\\' then "\\\\"
    else if c as int == 8 then "\\b"
    else if c as int == 12 then "\\f"
    else if c == '\n' then "\\n"
    else if c == '\r' then "\\r"
    else if c == '\t' then "\\t"
    else if c as int < 0x20 then "\\u00" + [Hex(c as int / 16), Hex(c as int % 16)]
    else [c]
  }

  function Escapes(s: string): string {
    if s == "" then "" else Escape(s[0]) + Escapes(s[1..])
  }

  function Literal(s: string): string {
    "\"" + Escapes(s) + "\""
  }

  /** The elements after the first, each with its comma. */
  function MoreWords(words: seq<string>): string {
    if words == [] then "" else "," + Literal(words[0]) + MoreWords(words[1..])
  }

  function WordList(words: seq<string>): string {
    if words == [] then "" else Literal(words[0]) + MoreWords(words[1..])
  }

  function Pair(e: Entry): string {
    Literal(e.0) + ":" + Literal(e.1)
  }

  function MoreEntries(env: seq<Entry>): string {
    if env == [] then "" else "," + Pair(env[0]) + MoreEntries(env[1..])
  }

  function EntryList(env: seq<Entry>): string {
    if env == [] then "" else Pair(env[0]) + MoreEntries(env[1..])
  }

  function Text(argv: seq<string>, cwd: string, env: seq<Entry>): string {
    "{\"cmd\":[" + (WordList(argv) + ("],\"cwd\":" + (Literal(cwd) + (",\"env\":{" + (EntryList(env) + "}}")))))
  }

  lemma JoinStep(json: string, e: string, rest: string)
    ensures json + e + rest == json + (e + rest)
  {
  }

  lemma EscapesStep(s: string, i: nat)
    requires i < |s|
    ensures Escapes(s[i..]) == Escape(s[i]) + Escapes(s[i + 1..])
  {
    assert s[i..][1..] == s[i + 1..];
  }

  method PushJsonString(out: string, s: string) returns (json: string)
    ensures json == out + Literal(s)
  {
    json := out + "\"";
    ghost var whole := json + Escapes(s);
    assert s[0..] == s;
    for i := 0 to |s|
      invariant json + Escapes(s[i..]) == whole
    {
      EscapesStep(s, i);
      JoinStep(json, Escape(s[i]), Escapes(s[i + 1..]));
      json := json + Escape(s[i]);
    }
    assert json == whole;
    json := json + "\"";
    LiteralJoin(out, s);
  }

  lemma LiteralJoin(out: string, s: string)
    ensures out + "\"" + Escapes(s) + "\"" == out + Literal(s)
  {
  }

  method CanonicalText(argv: seq<string>, cwd: string, env: seq<Entry>) returns (json: string)
    ensures json == Text(argv, cwd, env)
  {
    json := PushWords("{\"cmd\":[", argv);
    json := json + "],\"cwd\":";
    json := PushJsonString(json, cwd);
    json := json + ",\"env\":{";
    json := PushEntries(json, env);
    json := json + "}}";
    SixJoin("{\"cmd\":[", WordList(argv), "],\"cwd\":", Literal(cwd), ",\"env\":{", EntryList(env), "}}");
  }

  lemma SixJoin(a: string, b: string, c: string, d: string, e: string, f: string, g: string)
    ensures a + b + c + d + e + f + g == a + (b + (c + (d + (e + (f + g)))))
  {
    JoinStep(a + b + c + d + e, f, g);
    JoinStep(a + b + c + d, e, f + g);
    JoinStep(a + b + c, d, e + (f + g));
    JoinStep(a + b, c, d + (e + (f + g)));
    JoinStep(a, b, c + (d + (e + (f + g))));
  }

  /** What is still to be written of a list, from element `i` on. */
  function WordsFrom(words: seq<string>, i: nat): string
    requires i <= |words|
  {
    if i == 0 then WordList(words) else MoreWords(words[i..])
  }

  lemma WordsFromStep(words: seq<string>, i: nat)
    requires i < |words|
    ensures WordsFrom(words, i) == (if i > 0 then "," else "") + Literal(words[i]) + WordsFrom(words, i + 1)
  {
    assert words[i..][0] == words[i] && words[i..][1..] == words[i + 1..];
    assert "" + Literal(words[i]) == Literal(words[i]);
  }

  method PushWords(out: string, words: seq<string>) returns (json: string)
    ensures json == out + WordList(words)
  {
    json := out;
    for i := 0 to |words|
      invariant json + WordsFrom(words, i) == out + WordList(words)
    {
      WordsFromStep(words, i);
      json := PushElement(json, i, Literal(words[i]), WordsFrom(words, i + 1));
    }
    assert WordsFrom(words, |words|) == "";
  }

  /** A comma goes before every element but the first. */
  method PushElement(out: string, i: nat, element: string, ghost rest: string) returns (json: string)
    ensures json + rest == out + ((if i > 0 then "," else "") + element + rest)
  {
    json := out;
    if i > 0 {
      json := json + ",";
    }
    json := json + element;
  }

  function EntriesFrom(env: seq<Entry>, i: nat): string
    requires i <= |env|
  {
    if i == 0 then EntryList(env) else MoreEntries(env[i..])
  }

  lemma EntriesFromStep(env: seq<Entry>, i: nat)
    requires i < |env|
    ensures EntriesFrom(env, i) == (if i > 0 then "," else "") + Pair(env[i]) + EntriesFrom(env, i + 1)
  {
    assert env[i..][0] == env[i] && env[i..][1..] == env[i + 1..];
    assert "" + Pair(env[i]) == Pair(env[i]);
  }

  method PushEntries(out: string, env: seq<Entry>) returns (json: string)
    ensures json == out + EntryList(env)
  {
    json := out;
    for i := 0 to |env|
      invariant json + EntriesFrom(env, i) == out + EntryList(env)
    {
      EntriesFromStep(env, i);
      var pair := PushPair(env[i]);
      json := PushElement(json, i, pair, EntriesFrom(env, i + 1));
    }
    assert EntriesFrom(env, |env|) == "";
  }

  method PushPair(e: Entry) returns (json: string)
    ensures json == Pair(e)
  {
    json := PushJsonString("", e.0);
    json := json + ":";
    json := PushJsonString(json, e.1);
  }

  // -------------------------------------------------------------- the reader

  /** What was read, and the text after it. */
  type Reading<T> = Option<(T, string)>

  function HexValue(c: char): int {
    if '0' <= c <= '9' then c as int - '0' as int else if 'a' <= c <= 'f' then c as int - 'a' as int + 10 else -1
  }

  /** A character that stands for itself, or an escape. */
  function ReadChar(t: string): (r: Reading<char>)
    ensures r.Some? ==> |r.value.1| < |t|
  {
    if t == "" || t[0] == '"' then None
    else if t[0] != '\\' then Some((t[0], t[1..]))
    else if |t| < 2 then None
    else if t[1] == '"' then Some(('"', t[2..]))
    else if t[1] == '\\' then Some(('\\', t[2..]))
    else if t[1] == 'b' then Some((8 as char, t[2..]))
    else if t[1] == 'f' then Some((12 as char, t[2..]))
    else if t[1] == 'n' then Some(('\n', t[2..]))
    else if t[1] == 'r' then Some(('\r', t[2..]))
    else if t[1] == 't' then Some(('\t', t[2..]))
    else if t[1] == 'u' && |t| >= 6 && HexValue(t[4]) >= 0 && HexValue(t[5]) >= 0 then
      Some(((HexValue(t[4]) * 16 + HexValue(t[5])) as char, t[6..]))
    else None
  }

  /** The rest of a string literal, up to its closing quote. */
  function ReadRest(t: string): (r: Reading<string>)
    ensures r.Some? ==> |r.value.1| < |t|
    decreases |t|
  {
    if t == "" then None
    else if t[0] == '"' then Some(("", t[1..]))
    else
      var c := ReadChar(t);
      if c.None? then None
      else
        var r := ReadRest(c.value.1);
        if r.None? then None else Some(([c.value.0] + r.value.0, r.value.1))
  }

  function ReadLiteral(t: string): (r: Reading<string>)
    ensures r.Some? ==> |r.value.1| < |t|
  {
    if t == "" || t[0] != '"' then None else ReadRest(t[1..])
  }

  function ReadMoreWords(t: string): Reading<seq<string>>
    decreases |t|
  {
    if t == "" then None
    else if t[0] != ',' then Some(([], t))
    else
      var w := ReadLiteral(t[1..]);
      if w.None? then None
      else
        var r := ReadMoreWords(w.value.1);
        if r.None? then None else Some(([w.value.0] + r.value.0, r.value.1))
  }

  function ReadWords(t: string): Reading<seq<string>> {
    if t == "" then None
    else if t[0] != '"' then Some(([], t))
    else
      var w := ReadLiteral(t);
      if w.None? then None
      else
        var r := ReadMoreWords(w.value.1);
        if r.None? then None else Some(([w.value.0] + r.value.0, r.value.1))
  }

  function ReadPair(t: string): (r: Reading<Entry>)
    ensures r.Some? ==> |r.value.1| < |t|
  {
    var k := ReadLiteral(t);
    if k.None? || k.value.1 == "" || k.value.1[0] != ':' then None
    else
      var v := ReadLiteral(k.value.1[1..]);
      if v.None? then None else Some(((k.value.0, v.value.0), v.value.1))
  }

  function ReadMoreEntries(t: string): Reading<seq<Entry>>
    decreases |t|
  {
    if t == "" then None
    else if t[0] != ',' then Some(([], t))
    else
      var e := ReadPair(t[1..]);
      if e.None? then None
      else
        var r := ReadMoreEntries(e.value.1);
        if r.None? then None else Some(([e.value.0] + r.value.0, r.value.1))
  }

  function ReadEntries(t: string): Reading<seq<Entry>> {
    if t == "" then None
    else if t[0] != '"' then Some(([], t))
    else
      var e := ReadPair(t);
      if e.None? then None
      else
        var r := ReadMoreEntries(e.value.1);
        if r.None? then None else Some(([e.value.0] + r.value.0, r.value.1))
  }

  /** The text after `fixed`, which must come first. */
  function Skip(fixed: string, t: string): Option<string> {
    if fixed <= t then Some(t[|fixed|..]) else None
  }

  /** Reads back the command, the directory and the environment. */
  function Read(t: string): Option<(seq<string>, string, seq<Entry>)> {
    var t1 := Skip("{\"cmd\":[", t);
    if t1.None? then None
    else
      var words := ReadWords(t1.value);
      if words.None? then None
      else
        var t2 := Skip("],\"cwd\":", words.value.1);
        if t2.None? then None
        else
          var cwd := ReadLiteral(t2.value);
          if cwd.None? then None
          else
            var t3 := Skip(",\"env\":{", cwd.value.1);
            if t3.None? then None
            else
              var env := ReadEntries(t3.value);
              if env.None? || env.value.1 != "}}" then None else Some((words.value.0, cwd.value.0, env.value.0))
  }

  // ----------------------------------------------------------- the round trip

  lemma HexRoundTrip(n: int)
    requires 0 <= n < 16
    ensures HexValue(Hex(n)) == n
  {
  }

  lemma CharRoundTrip(c: char, t: string)
    ensures ReadChar(Escape(c) + t) == Some((c, t))
  {
    var s := Escape(c) + t;
    if |Escape(c)| == 6 {
      HexRoundTrip(c as int / 16);
      HexRoundTrip(c as int % 16);
      assert s[6..] == t;
    } else if |Escape(c)| == 2 {
      assert s[2..] == t;
    } else {
      assert s[1..] == t;
    }
  }

  lemma {:induction false} RestRoundTrip(s: string, t: string)
    ensures ReadRest(Escapes(s) + ("\"" + t)) == Some((s, t))
  {
    if s == "" {
      assert Escapes(s) + ("\"" + t) == "\"" + t;
    } else {
      var rest := Escapes(s[1..]) + ("\"" + t);
      assert Escapes(s) + ("\"" + t) == Escape(s[0]) + rest;
      CharRoundTrip(s[0], rest);
      RestRoundTrip(s[1..], t);
      assert [s[0]] + s[1..] == s;
    }
  }

  /** Every string, control characters, quotes and backslashes included, is read back. */
  lemma LiteralRoundTrip(s: string, t: string)
    ensures ReadLiteral(Literal(s) + t) == Some((s, t))
  {
    assert (Literal(s) + t)[1..] == Escapes(s) + ("\"" + t);
    RestRoundTrip(s, t);
  }

  lemma {:induction false} MoreWordsRoundTrip(words: seq<string>, t: string)
    requires t != "" && t[0] != ','
    ensures ReadMoreWords(MoreWords(words) + t) == Some((words, t))
  {
    if words == [] {
      assert MoreWords(words) + t == t;
    } else {
      var rest := MoreWords(words[1..]) + t;
      MoreWordsHead(words, t);
      LiteralRoundTrip(words[0], rest);
      MoreWordsRoundTrip(words[1..], t);
      assert [words[0]] + words[1..] == words;
    }
  }

  lemma WordsRoundTrip(words: seq<string>, t: string)
    requires t != "" && t[0] != ',' && t[0] != '"'
    ensures ReadWords(WordList(words) + t) == Some((words, t))
  {
    if words == [] {
      assert WordList(words) + t == t;
    } else {
      var rest := MoreWords(words[1..]) + t;
      assert WordList(words) + t == Literal(words[0]) + rest;
      LiteralRoundTrip(words[0], rest);
      MoreWordsRoundTrip(words[1..], t);
      assert [words[0]] + words[1..] == words;
    }
  }

  lemma PairRoundTrip(e: Entry, t: string)
    ensures ReadPair(Pair(e) + t) == Some((e, t))
  {
    var rest := ":" + (Literal(e.1) + t);
    assert Pair(e) + t == Literal(e.0) + rest;
    LiteralRoundTrip(e.0, rest);
    assert rest[1..] == Literal(e.1) + t;
    LiteralRoundTrip(e.1, t);
  }

  lemma MoreEntriesHead(env: seq<Entry>, t: string)
    requires env != []
    ensures var s := MoreEntries(env) + t;
            s != "" && s[0] == ',' && s[1..] == Pair(env[0]) + (MoreEntries(env[1..]) + t)
  {
    JoinAssociates(",", Pair(env[0]), MoreEntries(env[1..]), t);
  }

  lemma JoinAssociates(a: string, b: string, c: string, d: string)
    ensures a + b + c + d == a + (b + (c + d))
  {
  }

  lemma MoreWordsHead(words: seq<string>, t: string)
    requires words != []
    ensures var s := MoreWords(words) + t;
            s != "" && s[0] == ',' && s[1..] == Literal(words[0]) + (MoreWords(words[1..]) + t)
  {
    JoinAssociates(",", Literal(words[0]), MoreWords(words[1..]), t);
  }

  lemma {:induction false} MoreEntriesRoundTrip(env: seq<Entry>, t: string)
    requires t != "" && t[0] != ','
    ensures ReadMoreEntries(MoreEntries(env) + t) == Some((env, t))
  {
    if env == [] {
      assert MoreEntries(env) + t == t;
    } else {
      var rest := MoreEntries(env[1..]) + t;
      MoreEntriesHead(env, t);
      PairRoundTrip(env[0], rest);
      MoreEntriesRoundTrip(env[1..], t);
      assert [env[0]] + env[1..] == env;
    }
  }

  lemma EntriesRoundTrip(env: seq<Entry>, t: string)
    requires t != "" && t[0] != ',' && t[0] != '"'
    ensures ReadEntries(EntryList(env) + t) == Some((env, t))
  {
    if env == [] {
      assert EntryList(env) + t == t;
    } else {
      var rest := MoreEntries(env[1..]) + t;
      assert EntryList(env) + t == Pair(env[0]) + rest;
      assert (Pair(env[0]) + rest)[0] == '"';
      PairRoundTrip(env[0], rest);
      MoreEntriesRoundTrip(env[1..], t);
      assert [env[0]] + env[1..] == env;
    }
  }

  lemma SkipFixed(fixed: string, t: string)
    ensures Skip(fixed, fixed + t) == Some(t)
  {
  }

  /** The reader recovers all three parts. */
  lemma TextRoundTrip(argv: seq<string>, cwd: string, env: seq<Entry>)
    ensures Read(Text(argv, cwd, env)) == Some((argv, cwd, env))
  {
    var t3 := EntryList(env) + "}}";
    var t2 := Literal(cwd) + (",\"env\":{" + t3);
    var t1 := WordList(argv) + ("],\"cwd\":" + t2);
    SkipFixed("{\"cmd\":[", t1);
    WordsRoundTrip(argv, "],\"cwd\":" + t2);
    SkipFixed("],\"cwd\":", t2);
    LiteralRoundTrip(cwd, ",\"env\":{" + t3);
    SkipFixed(",\"env\":{", t3);
    EntriesRoundTrip(env, "}}");
  }

  /** Different workers have different texts: no command, directory or environment reads as another. */
  lemma TextInjective(argv: seq<string>, cwd: string, env: seq<Entry>, argv': seq<string>, cwd': string,
                      env': seq<Entry>)
    requires Text(argv, cwd, env) == Text(argv', cwd', env')
    ensures argv == argv' && cwd == cwd' && env == env'
  {
    TextRoundTrip(argv, cwd, env);
    TextRoundTrip(argv', cwd', env');
  }

  // ------------------------------------------------------- the form, character by character

  /**
   * How each character is written: as itself from the space on, but for the quote and the backslash; by the
   * two-character escape where section 7 of RFC 8259 has one, the solidus excepted; else by four hex digits.
   */
  lemma EscapeForms(c: char)
    ensures c == '"' || c == '\\' || c == '\n' || c == '\r' || c == '\t' || c as int == 8 || c as int == 12 <==>
              |Escape(c)| == 2
    ensures (c == '"' ==> Escape(c) == "\\\"") && (c == '\\' ==> Escape(c) == "\\\\")
    ensures (c == '\n' ==> Escape(c) == "\\n") && (c == '\r' ==> Escape(c) == "\\r")
    ensures c == '\t' ==> Escape(c) == "\\t"
    ensures (c as int == 8 ==> Escape(c) == "\\b") && (c as int == 12 ==> Escape(c) == "\\f")
    ensures |Escape(c)| == 1 <==> c as int >= 0x20 && c != '"' && c != '\\'
    ensures |Escape(c)| == 1 ==> Escape(c) == [c]
    ensures |Escape(c)| != 1 && |Escape(c)| != 2 ==>
              |Escape(c)| == 6 && Escape(c)[..4] == "\\u00" && !('A' <= Escape(c)[5] <= 'F')
  {
  }

  /** No character of the text is a control character. */
  lemma {:induction false} EscapesPrintable(s: string)
    ensures forall i | 0 <= i < |Escapes(s)| :: Escapes(s)[i] as int >= 0x20
  {
    if s != "" {
      EscapesPrintable(s[1..]);
      assert forall i | 0 <= i < |Escape(s[0])| :: Escape(s[0])[i] as int >= 0x20;
    }
  }

  /** The whole text of a small worker. */
  lemma TextOfExample()
    ensures Text(["run", "-x"], "/w", [("A", "1"), ("B", "")]) ==
            "{\"cmd\":[" + ("\"run\"" + ",\"-x\"" + ("],\"cwd\":" + ("\"/w\"" + (",\"env\":{" + (
              "\"A\":\"1\"" + ",\"B\":\"\"" + "}}")))))
  {
    hide Literal, MoreWords, MoreEntries, Pair;
    WordsOfExample();
    EntriesOfExample();
    LiteralOfPlain("/w");
  }

  lemma WordsOfExample()
    ensures WordList(["run", "-x"]) == "\"run\"" + ",\"-x\""
  {
    hide Literal;
    LiteralOfPlain("run");
    LiteralOfPlain("-x");
    assert ["run", "-x"][1..] == ["-x"];
    assert MoreWords(["-x"]) == "," + Literal("-x") + MoreWords([]);
  }

  lemma EntriesOfExample()
    ensures EntryList([("A", "1"), ("B", "")]) == "\"A\":\"1\"" + ",\"B\":\"\""
  {
    hide Literal;
    LiteralOfPlain("A");
    LiteralOfPlain("1");
    LiteralOfPlain("B");
    LiteralOfPlain("");
    assert [("A", "1"), ("B", "")][1..] == [("B", "")];
    assert MoreEntries([("B", "")]) == "," + Pair(("B", "")) + MoreEntries([]);
  }

  lemma {:induction false} EscapesOfPlain(s: string)
    requires forall i | 0 <= i < |s| :: s[i] as int >= 0x20 && s[i] != '"' && s[i] != '\\'
    ensures Escapes(s) == s
  {
    if s != "" {
      EscapesOfPlain(s[1..]);
    }
  }

  /** Text without quotes, backslashes and control characters is written as it is. */
  lemma LiteralOfPlain(s: string)
    requires forall i | 0 <= i < |s| :: s[i] as int >= 0x20 && s[i] != '"' && s[i] != '\\'
    ensures Literal(s) == "\"" + s + "\""
  {
    EscapesOfPlain(s);
  }
}
