/** `runtime.env` of `supervisor_manager.py`: how the proxy URL is written, sourced by bash, and read back. */
module ProxyEnv {
  import opened Common
  import opened Text

  const ESCAPED: string := "'\\''"
  const COMMENT: string := "# Generated by sellerclaw-agent; sourced by runtime scripts."
  const EXPORT: string := "export PROXY_URL="

  /** `str.replace`: left to right, without overlap. */
  function Replace(s: string, pattern: string, replacement: string): string
    requires pattern != ""
  {
    if |s| < |pattern| then s
    else if s[..|pattern|] == pattern then replacement + Replace(s[|pattern|..], pattern, replacement)
    else [s[0]] + Replace(s[1..], pattern, replacement)
  }

  /** `_shell_quote_single` */
  function Quoted(value: string): string { "'" + Replace(value, "'", ESCAPED) + "'" }

  /** `write_runtime_env`: the body of the file. */
  function Written(proxy: string): string { COMMENT + "\n" + EXPORT + Quoted(Strip(proxy)) + "\n" }

  predicate Between(value: string, c: char) { |value| >= 2 && value[0] == c && value[|value| - 1] == c }

  function Unquoted(value: string): string {
    if Between(value, '\'') then Replace(value[1..|value| - 1], ESCAPED, "'")
    else if Between(value, '"') then value[1..|value| - 1]
    else value
  }

  function FirstExport(lines: seq<string>): Option<string> {
    if lines == [] then None
    else
      var line := Strip(lines[0]);
      if EXPORT <= line then Some(Unquoted(Strip(line[|EXPORT|..]))) else FirstExport(lines[1..])
  }

  /** `read_proxy_url_from_runtime_env` of a file that could be read. */
  function ReadBack(text: string): Option<string> { FirstExport(SplitLines(text)) }

  /** The same, with the loop over the lines. */
  method ReadProxyUrl(text: string) returns (r: Option<string>)
    ensures r == ReadBack(text)
  {
    var lines := SplitLines(text);
    var i := 0;
    while i < |lines|
      invariant 0 <= i <= |lines| && FirstExport(lines) == FirstExport(lines[i..])
    {
      var stripped := Strip(lines[i]);
      if EXPORT <= stripped {
        var value := Strip(stripped[|EXPORT|..]);
        if Between(value, '\'') { return Some(Replace(value[1..|value| - 1], ESCAPED, "'")); }
        if Between(value, '"') { return Some(value[1..|value| - 1]); }
        return Some(value);
      }
      i := i + 1;
    }
    r := None;
  }

  /** The guard of `update_manifest`: the proxy differs from the one in the file. */
  predicate Refuses(file: Option<string>, proxy: string) {
    var current := if file.None? then None else ReadBack(file.value);
    (if current.None? then "" else current.value) != Strip(proxy)
  }

  /** What bash makes of a word: quoted text is taken as it is, a backslash outside quotes escapes. */
  function BashWord(s: string, quoted: bool): Option<string> {
    if s == "" then if quoted then None else Some("")
    else if s[0] == '\'' then BashWord(s[1..], !quoted)
    else if !quoted && s[0] == '\\' then
      if |s| == 1 then None
      else var rest := BashWord(s[2..], false); if rest.None? then None else Some([s[1]] + rest.value)
    else var rest := BashWord(s[1..], quoted); if rest.None? then None else Some([s[0]] + rest.value)
  }

  // --- quoting ----------------------------------------------------------------------------------

  lemma ReplaceQuote(v: string)
    requires v != ""
    ensures Replace(v, "'", ESCAPED) == (if v[0] == '\'' then ESCAPED else [v[0]]) + Replace(v[1..], "'", ESCAPED)
  {
    assert v[..1] == [v[0]];
  }

  /** Left-to-right replacement undoes the quoting. */
  lemma {:induction false} UnquotingUndoes(v: string)
    ensures Replace(Replace(v, "'", ESCAPED), ESCAPED, "'") == v
  {
    if v != "" {
      var rest := Replace(v[1..], "'", ESCAPED);
      ReplaceQuote(v);
      UnquotingUndoes(v[1..]);
      if v[0] == '\'' {
        assert (ESCAPED + rest)[..4] == ESCAPED && (ESCAPED + rest)[4..] == rest;
        assert "'" + v[1..] == v;
      } else {
        var s := [v[0]] + rest;
        assert s[0] != '\'' && s[1..] == rest;
        assert [v[0]] + v[1..] == v;
        if |s| < 4 { ShortIsKept(rest); }
      }
    }
  }

  lemma ShortIsKept(s: string)
    requires |s| < 4
    ensures Replace(s, ESCAPED, "'") == s
  {}

  /** Bash, sourcing the file, sets the variable to the stripped proxy, whatever characters it holds. */
  lemma {:induction false} BashReadsQuoted(v: string)
    ensures BashWord(Replace(v, "'", ESCAPED) + "'", true) == Some(v)
    ensures BashWord(Quoted(v), false) == Some(v)
  {
    var body := Replace(v, "'", ESCAPED) + "'";
    assert Quoted(v)[0] == '\'' && Quoted(v)[1..] == body;
    if v == "" {
      assert body == "'" && body[1..] == "";
    } else {
      var rest := Replace(v[1..], "'", ESCAPED) + "'";
      ReplaceQuote(v);
      BashReadsQuoted(v[1..]);
      if v[0] == '\'' {
        assert body[0] == '\'' && body[1] == '\\' && body[2] == '\'' && body[3] == '\'' && body[4..] == rest;
        assert body[1..][2..] == body[3..] && body[3..][1..] == rest;
        assert BashWord(body[3..], false) == Some(v[1..]);
        assert BashWord(body[1..], false) == Some("'" + v[1..]);
      } else {
        assert body[0] == v[0] && body[1..] == rest;
      }
      assert [v[0]] + v[1..] == v;
    }
  }

  // --- the file ---------------------------------------------------------------------------------

  lemma {:induction false} ReplaceKeepsLine(s: string, pattern: string, replacement: string)
    requires pattern != "" && OneLine(s) && OneLine(replacement)
    ensures OneLine(Replace(s, pattern, replacement))
  {
    if |s| >= |pattern| {
      ReplaceKeepsLine(s[|pattern|..], pattern, replacement);
      ReplaceKeepsLine(s[1..], pattern, replacement);
    }
  }

  /** Whatever the file holds, the reader gives back text without a line break. */
  lemma {:induction false} OnlyLinesAreRead(lines: seq<string>)
    requires forall i :: 0 <= i < |lines| ==> OneLine(lines[i])
    ensures FirstExport(lines).Some? ==> OneLine(FirstExport(lines).value)
  {
    if lines != [] {
      var line := Strip(lines[0]);
      StripIsPart(lines[0]);
      if EXPORT <= line {
        var value := Strip(line[|EXPORT|..]);
        StripIsPart(line[|EXPORT|..]);
        if Between(value, '\'') { ReplaceKeepsLine(value[1..|value| - 1], ESCAPED, "'"); }
      } else {
        OnlyLinesAreRead(lines[1..]);
      }
    }
  }

  /** A value is read without the pair of quotes around it, and as it is when there is no pair of one kind. */
  lemma UnquotedExactly(value: string)
    ensures |value| >= 2 && value[0] == value[|value| - 1] == '\'' ==> Unquoted(value) == Replace(value[1..|value| - 1], ESCAPED, "'")
    ensures |value| >= 2 && value[0] == value[|value| - 1] == '"' ==> Unquoted(value) == value[1..|value| - 1]
    ensures |value| < 2 || value[0] != value[|value| - 1] || value[0] !in "'\"" ==> Unquoted(value) == value
  {}

  /** Without quotes and backslashes bash takes the text as it is. */
  lemma {:induction false} BashReadsPlain(s: string)
    requires '\'' !in s && '\\' !in s
    ensures BashWord(s, false) == Some(s)
  {
    if s != "" {
      BashReadsPlain(s[1..]);
      assert s == [s[0]] + s[1..];
    }
  }

  /** Within quotes it takes everything but a quote as it is, backslashes too. */
  lemma {:induction false} BashReadsWithin(s: string)
    requires '\'' !in s
    ensures BashWord(s + "'", true) == Some(s)
  {
    if s == "" {
      assert "'"[1..] == "";
    } else {
      BashReadsWithin(s[1..]);
      assert (s + "'")[1..] == s[1..] + "'" && s == [s[0]] + s[1..];
    }
  }

  lemma CommentInPieces()
    ensures COMMENT == "# Generated by " + "sellerclaw-agent; " + "sourced by " + "runtime scripts."
  {
    assert "# Generated by sellerclaw-agent; " == "# Generated by " + "sellerclaw-agent; ";
    assert "# Generated by sellerclaw-agent; sourced by " == "# Generated by sellerclaw-agent; " + "sourced by ";
  }

  lemma PiecesAreOneLine(a: string, b: string, c: string, d: string)
    requires OneLine(a) && OneLine(b) && OneLine(c) && OneLine(d)
    ensures OneLine(a + b + c + d)
  {}

  lemma CommentFacts()
    ensures OneLine(COMMENT) && Trimmed(COMMENT) && !(EXPORT <= COMMENT)
  {
    CommentInPieces();
    var head, tail := "# Generated by ", "runtime scripts.";
    PiecesAreOneLine(head, "sellerclaw-agent; ", "sourced by ", tail);
    assert COMMENT[0] == head[0] && COMMENT[|COMMENT| - 1] == tail[|tail| - 1] && COMMENT[0] != EXPORT[0];
  }

  lemma LineIsSkipped(line: string, body: string)
    requires OneLine(line) && Trimmed(line) && !(EXPORT <= line)
    ensures ReadBack(line + "\n" + body) == ReadBack(body)
  {
    LineSplitOff(line, body);
    StripTrims(line);
    assert SplitLines(line + "\n" + body)[1..] == SplitLines(body);
  }

  lemma CommentIsSkipped(body: string)
    ensures ReadBack(COMMENT + "\n" + body) == ReadBack(body)
  {
    CommentFacts();
    LineIsSkipped(COMMENT, body);
  }

  lemma ExportLineIsRead(v: string)
    requires OneLine(v)
    ensures ReadBack(EXPORT + Quoted(v) + "\n") == Some(v)
  {
    var quoted, line := Quoted(v), EXPORT + Quoted(v);
    ReplaceKeepsLine(v, "'", ESCAPED);
    LineSplitOff(line, "");
    assert line + "\n" + "" == EXPORT + Quoted(v) + "\n";
    assert line[0] == 'e' && line[|line| - 1] == '\'' && line[|EXPORT|..] == quoted;
    StripTrims(line);
    StripTrims(quoted);
    assert quoted[1..|quoted| - 1] == Replace(v, "'", ESCAPED);
    UnquotingUndoes(v);
  }

  /** The agent reads back the stripped proxy exactly when that holds no line break. */
  lemma ProxyRoundTrip(proxy: string)
    ensures ReadBack(Written(proxy)) == Some(Strip(proxy)) <==> OneLine(Strip(proxy))
  {
    var v := Strip(proxy);
    assert Written(proxy) == COMMENT + "\n" + (EXPORT + Quoted(v) + "\n");
    CommentIsSkipped(EXPORT + Quoted(v) + "\n");
    if OneLine(v) {
      ExportLineIsRead(v);
    } else {
      LinesHaveNoBreaks(Written(proxy));
      OnlyLinesAreRead(SplitLines(Written(proxy)));
    }
  }

  /**
   After a proxy without line breaks was written, the hot-reload guard refuses exactly the manifests whose
   stripped proxy differs. One with a line break is refused even when nothing changed.
   */
  lemma GuardIsExact(written: string, proxy: string)
    ensures OneLine(Strip(written)) ==> (Refuses(Some(Written(written)), proxy) <==> Strip(proxy) != Strip(written))
    ensures Refuses(Some(Written(written)), written) <==> !OneLine(Strip(written))
  {
    ProxyRoundTrip(written);
  }
}
