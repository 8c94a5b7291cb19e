/**
 Events as one text, and the text split into lines as `str.splitlines` does, which knows more line breaks than
 the newline that joins data lines.
 */
module SseText {
  import opened Text
  import opened Sse

  /** `data.split("\n")` */
  function Pieces(data: string): (r: seq<string>)
    ensures |r| > 0
  {
    if data == "" then [""]
    else
      var rest := Pieces(data[1..]);
      if data[0] == '\n' then [""] + rest else [[data[0]] + rest[0]] + rest[1..]
  }

  function FrameOf(e: Event): Frame { Frame(e.name, Pieces(e.data)) }

  function FramesOf(es: seq<Event>): seq<Frame> { seq(|es|, i requires 0 <= i < |es| => FrameOf(es[i])) }

  function TextOf(lines: seq<string>): string { if lines == [] then "" else lines[0] + "\n" + TextOf(lines[1..]) }

  /** The stream that carries the events. */
  function Wire(es: seq<Event>): string { TextOf(Encode(FramesOf(es))) }

  function Received(text: string): seq<Event> { Decode(SplitLines(text)) }

  /** A name and data that the stream can carry. */
  ghost predicate Sendable(e: Event) {
    && e.name != "" && Trimmed(e.name) && OneLine(e.name)
    && forall i :: 0 <= i < |Pieces(e.data)| ==> IsClean(Pieces(e.data)[i]) && OneLine(Pieces(e.data)[i])
  }

  ghost predicate AllOneLine(lines: seq<string>) { forall i :: 0 <= i < |lines| ==> OneLine(lines[i]) }

  /** Only newlines break the text. */
  ghost predicate OnlyNewlines(s: string) { forall i :: 0 <= i < |s| && IsBreak(s[i]) ==> s[i] == '\n' }

  // --- pieces and lines -------------------------------------------------------------------------

  lemma JoinMore(line: string, lines: seq<string>)
    requires lines != []
    ensures Join([line] + lines) == line + "\n" + Join(lines)
  {
    assert ([line] + lines)[1..] == lines;
  }

  lemma JoinLonger(c: char, lines: seq<string>)
    requires lines != []
    ensures Join([[c] + lines[0]] + lines[1..]) == [c] + Join(lines)
  {
    var longer := [[c] + lines[0]] + lines[1..];
    assert longer[1..] == lines[1..];
    if |lines| > 1 { assert [c] + lines[0] + "\n" + Join(lines[1..]) == [c] + (lines[0] + "\n" + Join(lines[1..])); }
  }

  lemma {:induction false} JoinOfPieces(data: string)
    ensures Join(Pieces(data)) == data
  {
    if data != "" {
      var c, rest := data[0], Pieces(data[1..]);
      JoinOfPieces(data[1..]);
      JoinMore("", rest);
      JoinLonger(c, rest);
      assert data == [c] + data[1..] && "" + "\n" + data[1..] == "\n" + data[1..];
    }
  }

  lemma {:induction false} PiecesOfOnlyNewlines(data: string)
    requires OnlyNewlines(data)
    ensures AllOneLine(Pieces(data))
  {
    if data != "" { PiecesOfOnlyNewlines(data[1..]); }
  }

  lemma {:induction false} JoinHasOnlyNewlines(lines: seq<string>)
    requires AllOneLine(lines)
    ensures OnlyNewlines(Join(lines))
  {
    if |lines| > 1 { JoinHasOnlyNewlines(lines[1..]); }
  }

  lemma {:induction false} SplitOfText(lines: seq<string>)
    requires AllOneLine(lines)
    ensures SplitLines(TextOf(lines)) == lines
  {
    if lines != [] {
      LineSplitOff(lines[0], TextOf(lines[1..]));
      SplitOfText(lines[1..]);
    }
  }

  lemma FrameLines(f: Frame)
    requires OneLine(f.name) && AllOneLine(f.data)
    ensures AllOneLine(EncodeOne(f))
  {
    var lines := EncodeOne(f);
    assert OneLine(EVENT_FIELD + " ") && OneLine(DATA_FIELD + " ");
    forall i | 0 <= i < |f.data| ensures OneLine(DataLines(f.data)[i]) {
      assert DataLines(f.data)[i] == DATA_FIELD + " " + f.data[i] && OneLine(f.data[i]);
    }
  }

  lemma {:induction false} EncodedLines(fs: seq<Frame>)
    requires forall i :: 0 <= i < |fs| ==> OneLine(fs[i].name) && AllOneLine(fs[i].data)
    ensures AllOneLine(Encode(fs))
  {
    if fs != [] {
      FrameLines(fs[0]);
      EncodedLines(fs[1..]);
    }
  }

  // --- what can be received ---------------------------------------------------------------------

  /** An event as it can come out of lines. */
  ghost predicate FromLines(e: Event) { OneLine(e.name) && OnlyNewlines(e.data) }

  ghost predicate Plain(s: State) {
    OneLine(s.name) && AllOneLine(s.data) && forall i :: 0 <= i < |s.out| ==> FromLines(s.out[i])
  }

  lemma FlushedFromLines(s: State)
    requires Plain(s)
    ensures forall i :: 0 <= i < |Flushed(s)| ==> FromLines(Flushed(s)[i])
  {
    JoinHasOnlyNewlines(s.data);
  }

  lemma {:induction false} DropIsPart(s: string)
    requires OneLine(s)
    ensures OneLine(DropCr(s))
  {
    if s != "" && s[0] == '\r' { DropIsPart(s[1..]); }
  }

  lemma LineIsPart(line: string)
    requires OneLine(line)
    ensures OneLine(StripCr(line))
    ensures EVENT_FIELD <= StripCr(line) ==> OneLine(OrMessage(Strip(StripCr(line)[|EVENT_FIELD|..])))
    ensures DATA_FIELD <= StripCr(line) ==> OneLine(LStrip(StripCr(line)[|DATA_FIELD|..]))
  {
    DropIsPart(line);
    ChopIsPrefix(DropCr(line));
    var read := StripCr(line);
    assert OneLine(MESSAGE);
    if EVENT_FIELD <= read { StripIsPart(read[|EVENT_FIELD|..]); }
    if DATA_FIELD <= read { LStripIsPart(read[|DATA_FIELD|..]); }
  }

  lemma FedStaysPlain(s: State, line: string)
    requires Plain(s) && OneLine(line)
    ensures Plain(Fed(s, line))
  {
    LineIsPart(line);
    FlushedFromLines(s);
    assert OneLine(MESSAGE);
  }

  lemma {:induction false} RunStaysPlain(s: State, lines: seq<string>)
    requires Plain(s) && AllOneLine(lines)
    ensures Plain(Run(s, lines))
    decreases |lines|
  {
    if lines != [] {
      FedStaysPlain(s, lines[0]);
      RunStaysPlain(Fed(s, lines[0]), lines[1..]);
    }
  }

  /** Whatever the text, the events that come out have one-line names and data broken by newlines alone. */
  lemma ReceivedFromLines(text: string)
    ensures forall i :: 0 <= i < |Received(text)| ==> FromLines(Received(text)[i])
  {
    LinesHaveNoBreaks(text);
    assert OneLine(MESSAGE) && Plain(START);
    RunStaysPlain(START, SplitLines(text));
    FlushedFromLines(Run(START, SplitLines(text)));
  }

  // --- round trip -------------------------------------------------------------------------------

  lemma EventsOfFrames(es: seq<Event>)
    ensures Events(FramesOf(es)) == es
  {
    forall i | 0 <= i < |es| ensures EventOf(FramesOf(es)[i]) == es[i] { JoinOfPieces(es[i].data); }
  }

  lemma SendableIsWellFormed(e: Event)
    requires OneLine(e.name) && AllOneLine(Pieces(e.data))
    ensures Sendable(e) <==> WellFormed(FrameOf(e))
  {}

  /** Of events from lines the stream is split where it was put together. */
  lemma LinesRoundTrip(es: seq<Event>)
    requires forall i :: 0 <= i < |es| ==> OneLine(es[i].name) && AllOneLine(Pieces(es[i].data))
    ensures Received(Wire(es)) == es <==> forall i :: 0 <= i < |es| ==> Sendable(es[i])
  {
    var fs := FramesOf(es);
    EncodedLines(fs);
    SplitOfText(Encode(fs));
    FramesRoundTrip(fs);
    EventsOfFrames(es);
    forall i | 0 <= i < |es| ensures Sendable(es[i]) <==> WellFormed(fs[i]) { SendableIsWellFormed(es[i]); }
  }

  /**
   Events written to one text and read back, the text split at every line break Python knows: they come back
   exactly when every name is trimmed, not empty and on one line, and no line of the data has white space before
   it, a CR after it, or any other line break in it.
   */
  lemma SseRoundTrip(es: seq<Event>)
    ensures Received(Wire(es)) == es <==> forall i :: 0 <= i < |es| ==> Sendable(es[i])
  {
    if forall i :: 0 <= i < |es| ==> OneLine(es[i].name) && AllOneLine(Pieces(es[i].data)) {
      LinesRoundTrip(es);
    } else if Received(Wire(es)) == es {
      ReceivedFromLines(Wire(es));
      forall i | 0 <= i < |es| ensures OneLine(es[i].name) && AllOneLine(Pieces(es[i].data)) {
        assert FromLines(Received(Wire(es))[i]);
        PiecesOfOnlyNewlines(es[i].data);
      }
      assert false;
    }
  }
}
