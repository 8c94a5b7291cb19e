/** The decoder of `sse_codec.py` for the lines of a server-sent event stream. */
module Sse {
  import opened Text

  datatype Event = Event(name: string, data: string)

  const MESSAGE: string := "message"
  const EVENT_FIELD: string := "event:"
  const DATA_FIELD: string := "data:"

  function DropCr(s: string): string { if s != "" && s[0] == '\r' then DropCr(s[1..]) else s }

  function ChopCr(s: string): string { if s != "" && s[|s| - 1] == '\r' then ChopCr(s[..|s| - 1]) else s }

  /** `line.strip("\r")` */
  function StripCr(s: string): string { ChopCr(DropCr(s)) }

  function Join(lines: seq<string>): string {
    if lines == [] then "" else if |lines| == 1 then lines[0] else lines[0] + "\n" + Join(lines[1..])
  }

  function OrMessage(s: string): string { if s != "" then s else MESSAGE }

  /** What the loop carries from line to line, with the events yielded so far. */
  datatype State = State(name: string, data: seq<string>, out: seq<Event>)

  const START: State := State(MESSAGE, [], [])

  function Flushed(s: State): seq<Event> { if s.data == [] then s.out else s.out + [Event(s.name, Join(s.data))] }

  function Fed(s: State, raw: string): State {
    var line := StripCr(raw);
    if EVENT_FIELD <= line then s.(name := OrMessage(Strip(line[|EVENT_FIELD|..])))
    else if DATA_FIELD <= line then s.(data := s.data + [LStrip(line[|DATA_FIELD|..])])
    else if line == "" then State(MESSAGE, [], Flushed(s))
    else s
  }

  function Run(s: State, lines: seq<string>): State
    decreases |lines|
  {
    if lines == [] then s else Run(Fed(s, lines[0]), lines[1..])
  }

  function Decode(lines: seq<string>): seq<Event> { Flushed(Run(START, lines)) }

  /** `iter_sse_events` */
  method IterSseEvents(lines: seq<string>) returns (events: seq<Event>)
    ensures events == Decode(lines)
  {
    var eventName, dataLines := MESSAGE, [];
    events := [];
    var i := 0;
    while i < |lines|
      invariant 0 <= i <= |lines|
      invariant Run(START, lines) == Run(State(eventName, dataLines, events), lines[i..])
    {
      var line := StripCr(lines[i]);
      if EVENT_FIELD <= line {
        eventName := OrMessage(Strip(line[|EVENT_FIELD|..]));
      } else if DATA_FIELD <= line {
        dataLines := dataLines + [LStrip(line[|DATA_FIELD|..])];
      } else if line == "" {
        if dataLines != [] { events := events + [Event(eventName, Join(dataLines))]; }
        dataLines, eventName := [], MESSAGE;
      }
      assert lines[i..][1..] == lines[i + 1..];
      i := i + 1;
    }
    if dataLines != [] { events := events + [Event(eventName, Join(dataLines))]; }
  }

  // --- frames -----------------------------------------------------------------------------------

  /** An event on the wire: its name, its data line by line, and a blank line. */
  datatype Frame = Frame(name: string, data: seq<string>)

  ghost predicate IsFrame(f: Frame) { f.data != [] }

  function Datum(line: string): string { DATA_FIELD + " " + line }

  function DataLines(data: seq<string>): seq<string> { seq(|data|, i requires 0 <= i < |data| => Datum(data[i])) }

  function EncodeOne(f: Frame): seq<string> { [EVENT_FIELD + " " + f.name] + DataLines(f.data) + [""] }

  function Encode(fs: seq<Frame>): seq<string> { if fs == [] then [] else EncodeOne(fs[0]) + Encode(fs[1..]) }

  function EventOf(f: Frame): Event { Event(f.name, Join(f.data)) }

  // --- runs -------------------------------------------------------------------------------------

  lemma {:induction false} RunSplits(s: State, a: seq<string>, b: seq<string>)
    ensures Run(s, a + b) == Run(Run(s, a), b)
    decreases |a|
  {
    if a == [] {
      assert a + b == b;
    } else {
      RunSplits(Fed(s, a[0]), a[1..], b);
      assert (a + b)[1..] == a[1..] + b;
    }
  }

  /** What was yielded before is only a prefix of what comes out. */
  lemma {:induction false} OutIsPrefix(name: string, data: seq<string>, out: seq<Event>, lines: seq<string>)
    ensures var r, q := Run(State(name, data, out), lines), Run(State(name, data, []), lines);
            r == State(q.name, q.data, out + q.out)
    decreases |lines|
  {
    if lines == [] {
      assert out + [] == out;
    } else {
      var s, t := Fed(State(name, data, out), lines[0]), Fed(State(name, data, []), lines[0]);
      assert s == State(t.name, t.data, out + t.out);
      OutIsPrefix(t.name, t.data, out + t.out, lines[1..]);
      OutIsPrefix(t.name, t.data, t.out, lines[1..]);
      var more := Run(State(t.name, t.data, []), lines[1..]).out;
      assert out + (t.out + more) == out + t.out + more;
    }
  }

  lemma BlankLineFlushes(s: State)
    ensures Fed(s, "") == State(MESSAGE, [], Flushed(s))
  {
    assert StripCr("") == "";
  }

  /** Decoding is a homomorphism: what a blank line ends is decoded on its own. */
  lemma DecodeIsHomomorphism(a: seq<string>, b: seq<string>)
    ensures Decode(a + [""] + b) == Decode(a + [""]) + Decode(b)
  {
    var ended := a + [""];
    var s := Run(START, a);
    RunSplits(START, a, [""]);
    RunSplits(START, ended, b);
    BlankLineFlushes(s);
    assert Run(s, [""]) == State(MESSAGE, [], Flushed(s));
    OutIsPrefix(MESSAGE, [], Flushed(s), b);
    var r := Run(START, b);
    assert Run(START, a + [""] + b) == State(r.name, r.data, Flushed(s) + r.out);
    assert Flushed(s) + (r.out + [Event(r.name, if r.data == [] then "" else Join(r.data))])
        == Flushed(s) + r.out + [Event(r.name, if r.data == [] then "" else Join(r.data))];
  }

  /** An event the stream breaks off in is yielded as if its blank line had come. */
  lemma LastFrameIsFlushed(a: seq<string>)
    ensures Decode(a + [""]) == Decode(a)
  {
    RunSplits(START, a, [""]);
    BlankLineFlushes(Run(START, a));
    assert Run(Run(START, a), [""]) == State(MESSAGE, [], Flushed(Run(START, a)));
  }

  function WithCr(lines: seq<string>): seq<string> { seq(|lines|, i requires 0 <= i < |lines| => lines[i] + "\r") }

  /** A carriage return before the line is stripped as well. */
  lemma LeadingCrIsStripped(line: string)
    ensures StripCr("\r" + line) == StripCr(line)
  {
    assert ("\r" + line)[1..] == line;
  }

  lemma {:induction false} CrIsStripped(line: string)
    ensures StripCr(line + "\r") == StripCr(line)
  {
    if line != "" && line[0] == '\r' {
      CrIsStripped(line[1..]);
      assert (line + "\r")[1..] == line[1..] + "\r";
    } else if line == "" {
      assert "\r"[1..] == "";
      assert line + "\r" == "\r";
    } else {
      assert DropCr(line + "\r") == line + "\r";
      assert (line + "\r")[..|line|] == line;
    }
  }

  /** Lines ended by CR LF decode like lines ended by LF. */
  lemma {:induction false} CrLfIsLf(s: State, lines: seq<string>)
    ensures Run(s, WithCr(lines)) == Run(s, lines)
    decreases |lines|
  {
    if lines != [] {
      CrIsStripped(lines[0]);
      assert WithCr(lines)[1..] == WithCr(lines[1..]);
      CrLfIsLf(Fed(s, lines[0]), lines[1..]);
    }
  }

  // --- round trip -------------------------------------------------------------------------------

  /** What decoding makes of a data line, and of a frame. */
  function Cleaned(line: string): string { LStrip(ChopCr(line)) }

  function CleanedAll(data: seq<string>): seq<string> { seq(|data|, i requires 0 <= i < |data| => Cleaned(data[i])) }

  function Normal(f: Frame): Frame { Frame(OrMessage(Strip(f.name)), CleanedAll(f.data)) }

  predicate IsClean(line: string) { line == "" || (!IsSpace(line[0]) && line[|line| - 1] != '\r') }

  /** A name that is trimmed and not empty; data lines without leading white space or a trailing CR. */
  ghost predicate WellFormed(f: Frame) {
    && f.name != "" && Trimmed(f.name)
    && forall i :: 0 <= i < |f.data| ==> IsClean(f.data[i])
  }

  lemma {:induction false} ChopStopsAt(a: string, b: string)
    requires a != "" && a[|a| - 1] != '\r'
    ensures ChopCr(a + b) == a + ChopCr(b)
  {
    if b == "" {
      assert a + b == a;
    } else if b[|b| - 1] == '\r' {
      ChopStopsAt(a, b[..|b| - 1]);
      assert (a + b)[..|a + b| - 1] == a + b[..|b| - 1];
    }
  }

  lemma DatumIsRead(s: State, line: string)
    ensures Fed(s, Datum(line)) == s.(data := s.data + [Cleaned(line)])
  {
    ChopStopsAt("data: ", line);
    assert Datum(line) == "data: " + line;
    var read := StripCr(Datum(line));
    assert read == "data: " + ChopCr(line);
    assert read[0] == 'd' && read[|DATA_FIELD|..] == " " + ChopCr(line);
    assert (" " + ChopCr(line))[1..] == ChopCr(line);
  }

  lemma {:induction false} DataAreRead(s: State, data: seq<string>)
    ensures Run(s, DataLines(data)) == s.(data := s.data + CleanedAll(data))
    decreases |data|
  {
    if data == [] {
      assert s.data + CleanedAll(data) == s.data;
    } else {
      DatumIsRead(s, data[0]);
      assert DataLines(data)[1..] == DataLines(data[1..]);
      DataAreRead(Fed(s, Datum(data[0])), data[1..]);
      assert s.data + [Cleaned(data[0])] + CleanedAll(data[1..]) == s.data + CleanedAll(data);
    }
  }

  lemma {:induction false} ChopThenStrip(s: string)
    ensures Strip(ChopCr(s)) == Strip(s)
  {
    if s != "" && s[|s| - 1] == '\r' {
      ChopThenStrip(s[..|s| - 1]);
      StripDropsLast(s);
    }
  }

  lemma {:induction false} StripDropsLast(s: string)
    requires s != "" && IsSpace(s[|s| - 1])
    ensures Strip(s[..|s| - 1]) == Strip(s)
  {
    var t := s[..|s| - 1];
    if IsSpace(s[0]) && |s| > 1 {
      StripDropsLast(s[1..]);
      assert t[1..] == s[1..][..|s[1..]| - 1];
    }
  }

  lemma NameIsRead(s: State, name: string)
    ensures Fed(s, EVENT_FIELD + " " + name) == s.(name := OrMessage(Strip(name)))
  {
    var line := EVENT_FIELD + " " + name;
    ChopStopsAt("event: ", name);
    assert line == "event: " + name;
    var read := StripCr(line);
    assert read == "event: " + ChopCr(name);
    assert read[0] == 'e' && read[|EVENT_FIELD|..] == " " + ChopCr(name);
    assert (" " + ChopCr(name))[1..] == ChopCr(name);
    assert Strip(" " + ChopCr(name)) == Strip(ChopCr(name));
    ChopThenStrip(name);
  }

  /** A frame decodes to its normal form. */
  lemma FrameIsRead(f: Frame)
    requires IsFrame(f)
    ensures Run(START, EncodeOne(f)) == State(MESSAGE, [], [EventOf(Normal(f))])
  {
    var named := [EVENT_FIELD + " " + f.name];
    var s := Fed(START, named[0]);
    NameIsRead(START, f.name);
    assert named[1..] == [] && Run(START, named) == s;
    RunSplits(START, named, DataLines(f.data));
    DataAreRead(s, f.data);
    var t := Run(START, named + DataLines(f.data));
    RunSplits(START, named + DataLines(f.data), [""]);
    BlankLineFlushes(t);
    assert [""][1..] == [];
    assert t.data == CleanedAll(f.data);
  }

  function Events(fs: seq<Frame>): seq<Event> { seq(|fs|, i requires 0 <= i < |fs| => EventOf(fs[i])) }

  function Normals(fs: seq<Frame>): seq<Frame> { seq(|fs|, i requires 0 <= i < |fs| => Normal(fs[i])) }

  lemma {:induction false} EncodedIsRead(fs: seq<Frame>)
    requires forall i :: 0 <= i < |fs| ==> IsFrame(fs[i])
    ensures Decode(Encode(fs)) == Events(Normals(fs))
  {
    if fs != [] {
      var first, rest := EncodeOne(fs[0]), Encode(fs[1..]);
      EncodedIsRead(fs[1..]);
      FrameIsRead(fs[0]);
      var a := first[..|first| - 1];
      assert first == a + [""];
      DecodeIsHomomorphism(a, rest);
      assert Decode(first) == [EventOf(Normal(fs[0]))];
      assert Events(Normals(fs)) == [EventOf(Normal(fs[0]))] + Events(Normals(fs[1..]));
    }
  }

  lemma PartsTell(a: string, x: string, b: string, y: string)
    requires |a| == |b| && a + "\n" + x == b + "\n" + y
    ensures a == b && x == y
  {
    assert (a + "\n" + x)[..|a|] == a && (b + "\n" + y)[..|b|] == b;
    assert (a + "\n" + x)[|a| + 1..] == x && (b + "\n" + y)[|b| + 1..] == y;
  }

  /** Joined text of as many lines is the same only if no line got shorter. */
  lemma {:induction false} JoinTells(a: seq<string>, b: seq<string>)
    requires |a| == |b| && forall i :: 0 <= i < |a| ==> |a[i]| <= |b[i]|
    ensures |Join(a)| <= |Join(b)|
    ensures Join(a) == Join(b) ==> a == b
  {
    if |a| == 1 {
      if Join(a) == Join(b) { assert a == [a[0]] && b == [b[0]]; }
    } else if a != [] {
      JoinTells(a[1..], b[1..]);
      if Join(a) == Join(b) {
        PartsTell(a[0], Join(a[1..]), b[0], Join(b[1..]));
        assert a == [a[0]] + a[1..] && b == [b[0]] + b[1..];
      }
    }
  }

  lemma {:induction false} ChopIsPrefix(s: string)
    ensures ChopCr(s) <= s && (ChopCr(s) == s <==> s == "" || s[|s| - 1] != '\r')
  {
    if s != "" && s[|s| - 1] == '\r' { ChopIsPrefix(s[..|s| - 1]); }
  }

  lemma CleanedKeeps(line: string)
    ensures |Cleaned(line)| <= |line|
    ensures Cleaned(line) == line <==> IsClean(line)
  {
    ChopIsPrefix(line);
    LStripIsPart(ChopCr(line));
    LStripHead(ChopCr(line));
  }

  lemma NormalKeeps(f: Frame)
    requires IsFrame(f)
    ensures EventOf(Normal(f)) == EventOf(f) <==> WellFormed(f)
  {
    StripTrims(f.name);
    forall i | 0 <= i < |f.data|
      ensures |Cleaned(f.data[i])| <= |f.data[i]|
      ensures Cleaned(f.data[i]) == f.data[i] <==> IsClean(f.data[i])
    {
      CleanedKeeps(f.data[i]);
    }
    JoinTells(CleanedAll(f.data), f.data);
    if WellFormed(f) { assert CleanedAll(f.data) == f.data; }
    if CleanedAll(f.data) == f.data {
      forall i | 0 <= i < |f.data| ensures Cleaned(f.data[i]) == f.data[i] { assert CleanedAll(f.data)[i] == f.data[i]; }
    }
    NamesTell(f.name);
  }

  /** A stripped name is the name again exactly when it was trimmed and not empty. */
  lemma NamesTell(name: string)
    ensures OrMessage(Strip(name)) == name <==> name != "" && Trimmed(name)
  {
    StripTrims(name);
    if Strip(name) == "" && name == MESSAGE { assert Trimmed(MESSAGE); }
  }

  lemma NormalsTell(fs: seq<Frame>)
    requires forall i :: 0 <= i < |fs| ==> IsFrame(fs[i])
    ensures Events(Normals(fs)) == Events(fs) <==> forall i :: 0 <= i < |fs| ==> WellFormed(fs[i])
  {
    forall i | 0 <= i < |fs| ensures Events(Normals(fs))[i] == Events(fs)[i] <==> WellFormed(fs[i]) { NormalKeeps(fs[i]); }
  }

  /**
   Decoding the lines of events, each with at least one data line, gives them back exactly when every
   name is trimmed and not empty and no data line has white space before it or a CR after it.
   */
  lemma FramesRoundTrip(fs: seq<Frame>)
    requires forall i :: 0 <= i < |fs| ==> IsFrame(fs[i])
    ensures Decode(Encode(fs)) == Events(fs) <==> forall i :: 0 <= i < |fs| ==> WellFormed(fs[i])
  {
    EncodedIsRead(fs);
    NormalsTell(fs);
  }

  // --- the standard -----------------------------------------------------------------------------

  /** A value with the one space after the colon taken off. */
  function OneSpaceOff(value: string): string { if value != "" && value[0] == ' ' then value[1..] else value }

  /**
   One line of the interpretation in section 9.2.6 of the WHATWG HTML standard, the fields `id` and `retry`
   left aside. A field name may stand without a colon; the event type defaults when the event is dispatched.
   */
  function Interpreted(s: State, line: string): State {
    if line == "" then State(MESSAGE, [], Flushed(s))
    else if EVENT_FIELD <= line then s.(name := OrMessage(OneSpaceOff(line[|EVENT_FIELD|..])))
    else if DATA_FIELD <= line then s.(data := s.data + [OneSpaceOff(line[|DATA_FIELD|..])])
    else if line == "event" then s.(name := MESSAGE)
    else if line == "data" then s.(data := s.data + [""])
    else s
  }

  function Interpret(s: State, lines: seq<string>): State
    decreases |lines|
  {
    if lines == [] then s else Interpret(Interpreted(s, lines[0]), lines[1..])
  }

  /** At the end of the stream the standard discards what no blank line ended. */
  function StandardDecode(lines: seq<string>): seq<Event> { Interpret(START, lines).out }

  /** No bare field name, and a value with no white space beyond the one space (nor behind an event name). */
  predicate Conforms(line: string) {
    && line != "event" && line != "data"
    && (EVENT_FIELD <= line ==> Trimmed(OneSpaceOff(line[|EVENT_FIELD|..])))
    && (DATA_FIELD <= line ==>
          var value := OneSpaceOff(line[|DATA_FIELD|..]); value == "" || !IsSpace(value[0]))
  }

  predicate NoCr(line: string) { line == "" || (line[0] != '\r' && line[|line| - 1] != '\r') }

  lemma SpaceOff(value: string)
    ensures LStrip(value) == LStrip(OneSpaceOff(value)) && Strip(value) == Strip(OneSpaceOff(value))
  {}

  /** Of a line without CR the decoder makes what the standard makes of it, in every state, exactly when it conforms. */
  lemma LineConforms(line: string)
    requires NoCr(line)
    ensures (forall s :: Fed(s, line) == Interpreted(s, line)) <==> Conforms(line)
  {
    assert StripCr(line) == line;
    var busy := State("x", [], []);
    if EVENT_FIELD <= line {
      var value := line[|EVENT_FIELD|..];
      SpaceOff(value);
      StripTrims(OneSpaceOff(value));
      EventNamesTell(OneSpaceOff(value));
      assert Fed(busy, line).name == OrMessage(Strip(value)) && Interpreted(busy, line).name == OrMessage(OneSpaceOff(value));
    } else if DATA_FIELD <= line {
      var value := line[|DATA_FIELD|..];
      SpaceOff(value);
      LStripHead(OneSpaceOff(value));
      assert Fed(busy, line).data[0] == LStrip(value) && Interpreted(busy, line).data[0] == OneSpaceOff(value);
    } else if line == "event" || line == "data" {
      assert Fed(busy, line) == busy != Interpreted(busy, line);
    }
  }

  lemma EventNamesTell(name: string)
    ensures OrMessage(Strip(name)) == OrMessage(name) <==> Trimmed(name)
  {
    StripTrims(name);
    assert Trimmed(MESSAGE);
  }

  lemma {:induction false} LinesConform(s: State, lines: seq<string>)
    requires forall i :: 0 <= i < |lines| ==> NoCr(lines[i]) && Conforms(lines[i])
    ensures Run(s, lines) == Interpret(s, lines)
    decreases |lines|
  {
    if lines != [] {
      LineConforms(lines[0]);
      LinesConform(Fed(s, lines[0]), lines[1..]);
    }
  }

  /** On conforming lines the decoder gives what the standard gives once a blank line ends the stream. */
  lemma DecodesLikeTheStandard(lines: seq<string>)
    requires forall i :: 0 <= i < |lines| ==> NoCr(lines[i]) && Conforms(lines[i])
    ensures Decode(lines) == StandardDecode(lines + [""])
  {
    LastFrameIsFlushed(lines);
    LinesConform(START, lines + [""]);
    RunSplits(START, lines, [""]);
    BlankLineFlushes(Run(START, lines));
    assert Run(Run(START, lines), [""]) == State(MESSAGE, [], Flushed(Run(START, lines)));
  }
}
