/**
  Quoting for a POSIX shell. The reader below follows sections 2.2.1 (escape character) and
  2.2.2 (single quotes) of the POSIX.1-2017 Shell Command Language; what the quoter writes,
  it reads back.
 */
module ShellQuote {
  import opened Prelude

  /** The body of a single-quoted string: an interior quote closes, escapes and reopens. */
  function Escaped(value: string): string {
    if value == [] then [] else EscapedChar(value[0]) + Escaped(value[1..])
  }

  function EscapedChar(c: char): string { if c == '\'' then "'\\''" else [c] }

  function Quoted(value: string): string { "'" + Escaped(value) + "'" }

  lemma {:induction false} EscapedConcat(a: string, b: string)
    ensures Escaped(a + b) == Escaped(a) + Escaped(b)
  {
    if a == [] {
      assert a + b == b;
    } else {
      EscapedConcat(a[1..], b);
      assert (a + b)[1..] == a[1..] + b;
      var head := EscapedChar(a[0]);
      assert head + (Escaped(a[1..]) + Escaped(b)) == (head + Escaped(a[1..])) + Escaped(b);
    }
  }

  method Quote(value: string) returns (out: string)
    ensures out == Quoted(value)
  {
    if value == "" {
      return "''";
    }
    out := "'";
    for i := 0 to |value|
      invariant out == "'" + Escaped(value[..i])
    {
      assert value[..i + 1] == value[..i] + [value[i]];
      EscapedConcat(value[..i], [value[i]]);
      assert Escaped([value[i]]) == EscapedChar(value[i]) + [] == EscapedChar(value[i]);
      assert out + EscapedChar(value[i]) == "'" + (Escaped(value[..i]) + EscapedChar(value[i]));
      if value[i] == '\'' {
        out := out + "'\\''";
      } else {
        out := out + [value[i]];
      }
    }
    assert value[..|value|] == value;
    out := out + "'";
  }

  // ---------- the shell's side ----------

  predicate Blank(c: char) { c == ' ' || c == '\t' }

  /** Characters that mean something to the shell when they stand unquoted. */
  predicate Special(c: char) { c in "|&;<>()$`\"*?[#~=%\n" }

  /** Outside any word, inside a word, or inside a single-quoted part of one. */
  datatype Mode = Outside | InWord | InQuotes

  /**
    The words of a command line. None when a quote or escape is left open, or when the line uses
    anything beyond plain characters, blanks, escapes and single quotes.
   */
  function Read(s: string, mode: Mode, word: string, words: seq<string>): Option<seq<string>> {
    if s == [] then
      match mode
      case Outside => Some(words)
      case InWord => Some(words + [word])
      case InQuotes => None
    else if mode.InQuotes? then
      if s[0] == '\'' then Read(s[1..], InWord, word, words) else Read(s[1..], InQuotes, word + [s[0]], words)
    else if s[0] == '\'' then Read(s[1..], InQuotes, word, words)
    else if s[0] == '\\' then
      if |s| == 1 then None
      else if s[1] == '\n' then Read(s[2..], mode, word, words)
      else Read(s[2..], InWord, word + [s[1]], words)
    else if Blank(s[0]) then
      if mode.InWord? then Read(s[1..], Outside, [], words + [word]) else Read(s[1..], Outside, [], words)
    else if Special(s[0]) then None
    else Read(s[1..], InWord, word + [s[0]], words)
  }

  function Tokenize(line: string): Option<seq<string>> { Read(line, Outside, [], []) }

  function JoinQuoted(args: seq<string>): string {
    if args == [] then []
    else if |args| == 1 then Quoted(args[0])
    else Quoted(args[0]) + " " + JoinQuoted(args[1..])
  }

  /** Closing, escaping and reopening the quotes adds one quote character to the word. */
  lemma ReadInteriorQuote(tail: string, word: string, words: seq<string>)
    ensures Read("'\\''" + tail, InQuotes, word, words) == Read(tail, InQuotes, word + ['\''], words)
  {
    var line, after, reopened := "'\\''" + tail, "\\''" + tail, "'" + tail;
    assert line[1..] == after && after[2..] == reopened && reopened[1..] == tail;
    assert Read(line, InQuotes, word, words) == Read(after, InWord, word, words);
    assert Read(after, InWord, word, words) == Read(reopened, InWord, word + ['\''], words);
  }

  /** Within quotes, the escaped form of a value adds exactly that value to the word. */
  lemma {:induction false} ReadEscaped(value: string, rest: string, word: string, words: seq<string>)
    ensures Read(Escaped(value) + "'" + rest, InQuotes, word, words) == Read(rest, InWord, word + value, words)
  {
    var line := Escaped(value) + "'" + rest;
    if value == [] {
      assert line[1..] == rest;
      assert word + value == word;
    } else {
      var tail := Escaped(value[1..]) + "'" + rest;
      assert word + [value[0]] + value[1..] == word + value;
      ReadEscaped(value[1..], rest, word + [value[0]], words);
      if value[0] == '\'' {
        assert line == "'\\''" + tail;
        ReadInteriorQuote(tail, word, words);
      } else {
        assert line == [value[0]] + tail;
        assert line[1..] == tail;
      }
    }
  }

  lemma ReadQuoted(value: string, rest: string, words: seq<string>)
    ensures Read(Quoted(value) + rest, Outside, [], words) == Read(rest, InWord, value, words)
  {
    var line := Quoted(value) + rest;
    assert line[0] == '\'';
    assert line[1..] == Escaped(value) + "'" + rest;
    ReadEscaped(value, rest, [], words);
    assert [] + value == value;
  }

  lemma {:induction false} ReadJoined(args: seq<string>, words: seq<string>)
    ensures Read(JoinQuoted(args), Outside, [], words) == Some(words + args)
  {
    if args == [] {
      assert words + args == words;
    } else if |args| == 1 {
      ReadQuoted(args[0], [], words);
      assert Quoted(args[0]) + [] == Quoted(args[0]);
      assert args == [args[0]];
    } else {
      var tail := JoinQuoted(args[1..]);
      var rest := " " + tail;
      assert JoinQuoted(args) == Quoted(args[0]) + rest;
      ReadQuoted(args[0], rest, words);
      assert rest[1..] == tail;
      assert Read(rest, InWord, args[0], words) == Read(tail, Outside, [], words + [args[0]]);
      ReadJoined(args[1..], words + [args[0]]);
      assert words + [args[0]] + args[1..] == words + args;
    }
  }

  /** Whatever the arguments, empty ones included, the shell reads back exactly the list that was quoted. */
  lemma QuotingRoundTrips(args: seq<string>)
    ensures Tokenize(JoinQuoted(args)) == Some(args)
  {
    ReadJoined(args, []);
    assert [] + args == args;
  }

  /** Two argument lists never share a command line. */
  lemma QuotingIsInjective(a: seq<string>, b: seq<string>)
    requires JoinQuoted(a) == JoinQuoted(b)
    ensures a == b
  {
    QuotingRoundTrips(a);
    QuotingRoundTrips(b);
  }
}
