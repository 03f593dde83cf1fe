/** The list file handed to ffmpeg's concat demuxer: its writer, and the reader it is written for. */
module ConcatList {
  import opened Common

  datatype ListError = UnsafePath(path: string) | BadDirective(line: string) | OpenQuote

  const KEYWORD := "file "

  /** What ends a line, or the path itself, before any quote is looked at. */
  predicate Fatal(ch: char) { ch == '\0' || ch == '\r' || ch == '\n' }

  predicate Safe(path: string) { forall i :: 0 <= i < |path| ==> !Fatal(path[i]) }

  // ---- Writer ---------------------------------------------------------------------

  /** A quote is written by closing the quotes, escaping it and opening them again. */
  function Escaped(path: string): string {
    if path == "" then ""
    else (if path[0] == '\'' then "'\\''" else [path[0]]) + Escaped(path[1..])
  }

  function ListEntry(path: string): Result<string, ListError> {
    if Safe(path) then Ok(KEYWORD + "'" + Escaped(path) + "'\n") else Err(UnsafePath(path))
  }

  function WriteList(paths: seq<string>): Result<string, ListError> {
    if paths == [] then Ok("") else
      match (ListEntry(paths[0]), WriteList(paths[1..]))
      case (Ok(entry), Ok(rest)) => Ok(entry + rest)
      case (Err(e), _) => Err(e)
      case (_, Err(e)) => Err(e)
  }

  // ---- Reader ---------------------------------------------------------------------

  predicate EndsLine(ch: char) { ch == '\r' || ch == '\n' }

  predicate Blank(ch: char) { ch == ' ' || ch == '\t' || EndsLine(ch) }

  /** The length of the first line, without what ends it. */
  function LineLength(text: string): (n: nat)
    ensures n <= |text|
  {
    if text == "" || EndsLine(text[0]) then 0 else 1 + LineLength(text[1..])
  }

  /** One token: inside single quotes every character is literal; outside them a
      backslash makes the next character literal and a blank ends the token. */
  function Token(s: string, quoted: bool): Result<string, ListError>
    decreases |s|
  {
    if quoted then
      if s == "" then Err(OpenQuote)
      else if s[0] == '\'' then Token(s[1..], false)
      else Then(s[0], Token(s[1..], true))
    else if s == "" || Blank(s[0]) then Ok("")
    else if s[0] == '\\' && |s| > 1 then Then(s[1], Token(s[2..], false))
    else if s[0] == '\'' then Token(s[1..], true)
    else Then(s[0], Token(s[1..], false))
  }

  function Then(ch: char, rest: Result<string, ListError>): Result<string, ListError> {
    match rest
    case Ok(token) => Ok([ch] + token)
    case Err(e) => Err(e)
  }

  function ReadLine(line: string): Result<string, ListError> {
    if KEYWORD <= line then Token(line[|KEYWORD|..], false) else Err(BadDirective(line))
  }

  /** Line by line; an empty line says nothing. */
  function ReadList(text: string): Result<seq<string>, ListError>
    decreases |text|
  {
    if text == "" then Ok([]) else
      var n := LineLength(text);
      var later := if n < |text| then text[n + 1..] else "";
      if n == 0 then ReadList(later) else
        match (ReadLine(text[..n]), ReadList(later))
        case (Ok(path), Ok(paths)) => Ok([path] + paths)
        case (Err(e), _) => Err(e)
        case (_, Err(e)) => Err(e)
  }

  // ---- Round trip -------------------------------------------------------------------

  lemma {:induction false} EscapedSafe(path: string)
    requires Safe(path)
    ensures Safe(Escaped(path))
    decreases |path|
  {
    if path != "" {
      EscapedSafe(path[1..]);
    }
  }

  /** Inside the quotes the escaped path reads back as the path. */
  lemma {:induction false} TokenOfEscaped(path: string)
    ensures Token(Escaped(path) + "'", true) == Ok(path)
    decreases |path|
  {
    if path == "" {
      assert (Escaped(path) + "'")[1..] == "";
    } else {
      TokenOfEscaped(path[1..]);
      var rest := Escaped(path[1..]) + "'";
      var s := Escaped(path) + "'";
      if path[0] == '\'' {
        assert s == "'\\''" + rest;
        assert s[1..] == "\\''" + rest && s[1..][2..] == "'" + rest && ("'" + rest)[1..] == rest;
        assert Token("'" + rest, false) == Token(rest, true);
        assert Token(s[1..], false) == Then('\'', Token("'" + rest, false));
        assert Token(s, true) == Token(s[1..], false);
      } else {
        assert s[1..] == rest;
      }
      assert [path[0]] + path[1..] == path;
    }
  }

  lemma {:induction false} LineOf(line: string, later: string)
    requires forall i :: 0 <= i < |line| ==> !EndsLine(line[i])
    ensures LineLength(line + "\n" + later) == |line|
    decreases |line|
  {
    if line == "" {
      assert (line + "\n" + later)[0] == '\n';
    } else {
      LineOf(line[1..], later);
      assert (line + "\n" + later)[1..] == line[1..] + "\n" + later;
    }
  }

  lemma {:induction false} ReadEntry(path: string, later: string)
    requires Safe(path)
    ensures ReadList(ListEntry(path).value + later) ==
      match ReadList(later) { case Ok(paths) => Ok([path] + paths) case Err(e) => Err(e) }
  {
    var line := KEYWORD + "'" + Escaped(path) + "'";
    var text := ListEntry(path).value + later;
    EscapedSafe(path);
    assert text == line + "\n" + later;
    LineOf(line, later);
    assert text[..|line|] == line && text[|line| + 1..] == later;
    assert line[|KEYWORD|..] == "'" + (Escaped(path) + "'");
    assert ("'" + (Escaped(path) + "'"))[1..] == Escaped(path) + "'";
    TokenOfEscaped(path);
  }

  /** A list is written exactly when every path is free of NUL, CR and LF, and
      reading it gives back exactly the paths, in order. */
  lemma {:induction false} RoundTrip(paths: seq<string>)
    ensures WriteList(paths).Ok? <==> forall i :: 0 <= i < |paths| ==> Safe(paths[i])
    ensures WriteList(paths).Ok? ==> ReadList(WriteList(paths).value) == Ok(paths)
    decreases |paths|
  {
    if paths != [] {
      RoundTrip(paths[1..]);
      if WriteList(paths).Ok? {
        ReadEntry(paths[0], WriteList(paths[1..]).value);
        assert [paths[0]] + paths[1..] == paths;
      } else if Safe(paths[0]) {
        var i :| 0 <= i < |paths| - 1 && !Safe(paths[1..][i]);
        assert !Safe(paths[i + 1]);
      }
    }
  }

  /** A path can be listed exactly when it holds no NUL, CR or LF. */
  lemma {:induction false} SafeExactly(path: string)
    ensures Safe(path) <==> '\0' !in path && '\r' !in path && '\n' !in path
  {
  }

  /** Up to its first quote a path is written as it is; the quote becomes quote, backslash,
      quote, quote, and the rest follows by the same rule. */
  lemma {:induction false} QuotesEscaped(a: string, b: string)
    requires '\'' !in a
    ensures Escaped(a) == a && Escaped(a + "'" + b) == a + "'\\''" + Escaped(b)
    decreases |a|
  {
    if a == "" {
      assert "" + "'" + b == "'" + b && ("'" + b)[1..] == b;
    } else {
      QuotesEscaped(a[1..], b);
      assert (a + "'" + b)[1..] == a[1..] + "'" + b;
      assert [a[0]] + a[1..] == a;
    }
  }

  /** The list holds one line per path, in order: the keyword, a space and the path in quotes. */
  lemma {:induction false} LinesWritten(path: string, paths: seq<string>)
    requires Safe(path) && WriteList(paths).Ok?
    ensures WriteList([]) == Ok("")
    ensures WriteList([path] + paths) == Ok("file '" + Escaped(path) + "'\n" + WriteList(paths).value)
  {
    assert ([path] + paths)[1..] == paths;
    assert KEYWORD + "'" == "file '";
    assert ListEntry(path).value == "file '" + Escaped(path) + "'\n";
    assert WriteList([path] + paths) == Ok(ListEntry(path).value + WriteList(paths).value);
  }

  // ---- Why line ends have to be refused ------------------------------------------------

  predicate OneLine(path: string) { forall i :: 0 <= i < |path| ==> !EndsLine(path[i]) }

  lemma {:induction false} TokenOneLine(s: string, quoted: bool)
    requires OneLine(s)
    ensures Token(s, quoted).Ok? ==> OneLine(Token(s, quoted).value)
    decreases |s|
  {
    if s != "" {
      TokenOneLine(s[1..], true);
      TokenOneLine(s[1..], false);
      if |s| > 1 {
        TokenOneLine(s[2..], false);
      }
    }
  }

  lemma {:induction false} LineIsOneLine(text: string)
    ensures OneLine(text[..LineLength(text)])
    decreases |text|
  {
    if text != "" && !EndsLine(text[0]) {
      LineIsOneLine(text[1..]);
      assert text[..LineLength(text)] == [text[0]] + text[1..][..LineLength(text[1..])];
    }
  }

  /** No list text whatever reads back as a path with a line end in it. */
  lemma {:induction false} LineEndsUnreadable(text: string, k: nat)
    requires ReadList(text).Ok? && k < |ReadList(text).value|
    ensures OneLine(ReadList(text).value[k])
    decreases |text|
  {
    var n := LineLength(text);
    var later := if n < |text| then text[n + 1..] else "";
    if n == 0 {
      LineEndsUnreadable(later, k);
    } else if k > 0 {
      LineEndsUnreadable(later, k - 1);
    } else {
      LineIsOneLine(text);
      TokenOneLine(text[..n][|KEYWORD|..], false);
    }
  }
}
