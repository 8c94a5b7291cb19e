/**
 The command history of `command_history.py`: a file of JSON lines kept as a ring of the last 200 entries,
 and the scan that reads it back past damaged stretches.

 The JSON decoder and printer are given; what is assumed of them is `Advances` and `Faithful`.
 */
module CommandHistory {
  import opened Common
  import opened Text

  const MAX_ENTRIES: nat := 200

  type Entry = nat

  datatype Value = Dict(entry: Entry) | Other

  datatype Decoded = Decoded(value: Value, end: nat)

  /** `raw_decode` at a position, and `_dumps_line`. */
  datatype Codec = Codec(decode: (string, nat) -> Option<Decoded>, dump: Entry -> string)

  /** A value that was decoded took up some of the text. */
  ghost predicate Advances(c: Codec) {
    forall text: string, i: nat {:trigger c.decode(text, i)} ::
      c.decode(text, i).Some? ==> i < c.decode(text, i).value.end <= |text|
  }

  ghost predicate At(text: string, i: nat, part: string) { i + |part| <= |text| && text[i..i + |part|] == part }

  /** An object printed into a text is decoded from there, whatever follows it. */
  ghost predicate Faithful(c: Codec) {
    && (forall e :: c.dump(e) != "" && c.dump(e)[0] == '{')
    && (forall text: string, i: nat, e: Entry {:trigger At(text, i, c.dump(e))} ::
          At(text, i, c.dump(e)) ==> c.decode(text, i) == Some(Decoded(Dict(e), i + |c.dump(e)|)))
  }

  function SkipSpace(text: string, i: nat): (j: nat)
    requires i <= |text|
    ensures i <= j <= |text|
    decreases |text| - i
  {
    if i < |text| && IsSpace(text[i]) then SkipSpace(text, i + 1) else i
  }

  /** `text.find("{", i)`, with the length for not found. */
  function FindBrace(text: string, i: nat): (j: nat)
    requires i <= |text|
    ensures i <= j <= |text|
    decreases |text| - i
  {
    if i < |text| && text[i] != '{' then FindBrace(text, i + 1) else i
  }

  /** `_parse_json_dicts` from position `i` on. */
  function Parse(c: Codec, text: string, i: nat): seq<Entry>
    requires Advances(c) && i <= |text|
    decreases |text| - i
  {
    var j := SkipSpace(text, i);
    if j == |text| then []
    else
      var decoded := c.decode(text, j);
      if decoded.None? then Parse(c, text, FindBrace(text, j + 1))
      else (if decoded.value.value.Dict? then [decoded.value.value.entry] else []) + Parse(c, text, decoded.value.end)
  }

  function Print(c: Codec, es: seq<Entry>): string { if es == [] then "" else c.dump(es[0]) + "\n" + Print(c, es[1..]) }

  function Reversed(es: seq<Entry>): seq<Entry> { if es == [] then [] else Reversed(es[1..]) + [es[0]] }

  function Taken(out: seq<Entry>, v: Value): seq<Entry> { if v.Dict? then out + [v.entry] else out }

  /** One round of the scan, what it found already put behind `out`. */
  lemma ParseRound(c: Codec, text: string, i: nat, out: seq<Entry>)
    requires Advances(c) && i <= |text|
    ensures var j := SkipSpace(text, i);
            if j == |text| then Parse(c, text, i) == []
            else
              var decoded := c.decode(text, j);
              if decoded.None? then Parse(c, text, i) == Parse(c, text, FindBrace(text, j + 1))
              else out + Parse(c, text, i) == Taken(out, decoded.value.value) + Parse(c, text, decoded.value.end)
  {}

  method ParseJsonDicts(c: Codec, text: string) returns (out: seq<Entry>)
    requires Advances(c)
    ensures out == Parse(c, text, 0)
  {
    var idx := 0;
    out := [];
    while idx < |text|
      invariant idx <= |text| && Parse(c, text, 0) == out + Parse(c, text, idx)
      decreases |text| - idx
    {
      ParseRound(c, text, idx, out);
      idx := SkipSpaces(text, idx);
      if idx >= |text| { return; }
      var decoded := c.decode(text, idx);
      if decoded.None? {
        idx := FindBrace(text, idx + 1);
      } else {
        idx := decoded.value.end;
        if decoded.value.value.Dict? { out := out + [decoded.value.value.entry]; }
      }
    }
  }

  /** The scan's inner loop. */
  method SkipSpaces(text: string, start: nat) returns (idx: nat)
    requires start <= |text|
    ensures idx == SkipSpace(text, start)
    ensures start <= idx <= |text| && (idx < |text| ==> !IsSpace(text[idx]))
  {
    idx := start;
    while idx < |text| && IsSpace(text[idx])
      invariant start <= idx <= |text| && SkipSpace(text, start) == SkipSpace(text, idx)
    {
      idx := idx + 1;
    }
  }

  class CommandHistoryStorage {
    var file: Option<string>

    constructor ()
      ensures file == None
    {
      file := None;
    }

    method Append(c: Codec, entry: Entry)
      requires Advances(c)
      modifies this
      ensures file == Some(Appended(c, old(file), entry))
    {
      var existing := [];
      if file.Some? { existing := ParseJsonDicts(c, file.value); }
      existing := existing + [entry];
      if |existing| > MAX_ENTRIES { existing := existing[|existing| - MAX_ENTRIES..]; }
      file := Some(Print(c, existing));
    }

    method Load(c: Codec) returns (entries: seq<Entry>)
      requires Advances(c)
      ensures entries == Loaded(c, file)
    {
      if file.None? { return []; }
      var parsed := ParseJsonDicts(c, file.value);
      entries := Reversed(parsed);
    }
  }

  function Entries(c: Codec, file: Option<string>): seq<Entry>
    requires Advances(c)
  {
    if file.None? then [] else Parse(c, file.value, 0)
  }

  function Appended(c: Codec, file: Option<string>, entry: Entry): string
    requires Advances(c)
  {
    Print(c, LastN(Entries(c, file) + [entry], MAX_ENTRIES))
  }

  function Loaded(c: Codec, file: Option<string>): seq<Entry>
    requires Advances(c)
  {
    Reversed(Entries(c, file))
  }

  /** The file after appending entries one by one, starting from `file`. */
  function AppendedAll(c: Codec, file: Option<string>, es: seq<Entry>): Option<string>
    requires Advances(c)
  {
    if es == [] then file else Some(Appended(c, AppendedAll(c, file, es[..|es| - 1]), es[|es| - 1]))
  }

  // --- what is printed is read ------------------------------------------------------------------

  lemma LineIsDecoded(c: Codec, text: string, i: nat, e: Entry)
    requires Faithful(c) && At(text, i, c.dump(e))
    ensures c.dump(e) != "" && text[i] == '{' && c.decode(text, i) == Some(Decoded(Dict(e), i + |c.dump(e)|))
  {
    assert text[i] == text[i..i + |c.dump(e)|][0];
  }

  lemma LineIsParsed(c: Codec, text: string, i: nat, e: Entry, end: nat)
    requires Advances(c) && i < |text| && text[i] == '{' && c.decode(text, i) == Some(Decoded(Dict(e), end))
    ensures Parse(c, text, i) == [e] + Parse(c, text, end)
  {
    assert SkipSpace(text, i) == i;
  }

  lemma LineIsAt(text: string, i: nat, line: string, rest: string)
    requires i <= |text| && text[i..] == line + "\n" + rest
    ensures At(text, i, line) && i + |line| < |text| && text[i + |line|] == '\n' && text[i + |line| + 1..] == rest
  {
    var end := i + |line|;
    assert text[i..][..|line|] == line == text[i..end];
    assert text[end] == text[i..][|line|];
    assert text[end + 1..] == text[i..][|line| + 1..];
  }

  lemma PrintStep(c: Codec, text: string, i: nat, e: Entry, end: nat, rest: seq<Entry>)
    requires Advances(c) && i < |text| && text[i] == '{' && c.decode(text, i) == Some(Decoded(Dict(e), end))
    requires i < end < |text| && text[end] == '\n' && Parse(c, text, end + 1) == rest
    ensures Parse(c, text, i) == [e] + rest
  {
    LineIsParsed(c, text, i, e, end);
    SpaceIsSkipped(c, text, end);
  }

  /** The entries stand from position `i` to `after`, one on each line. */
  ghost predicate Lined(c: Codec, text: string, i: nat, es: seq<Entry>, after: nat)
    decreases |es|
  {
    if es == [] then i == after <= |text|
    else
      var end := i + |c.dump(es[0])|;
      At(text, i, c.dump(es[0])) && end < |text| && text[end] == '\n' && Lined(c, text, end + 1, es[1..], after)
  }

  lemma {:induction false} PrintIsLined(c: Codec, text: string, i: nat, es: seq<Entry>, rest: string)
    requires i <= |text| && text[i..] == Print(c, es) + rest
    ensures Lined(c, text, i, es, i + |Print(c, es)|)
    decreases |es|
  {
    if es == [] {
      assert Print(c, es) == "";
    } else {
      var more := Print(c, es[1..]) + rest;
      assert Print(c, es) + rest == c.dump(es[0]) + "\n" + more;
      LineIsAt(text, i, c.dump(es[0]), more);
      PrintIsLined(c, text, i + |c.dump(es[0])| + 1, es[1..], rest);
    }
  }

  /** Entries printed line by line are read back, whatever follows them. */
  lemma {:induction false} PrintedIsParsed(c: Codec, text: string, i: nat, es: seq<Entry>, after: nat)
    requires Advances(c) && Faithful(c) && i <= |text| && Lined(c, text, i, es, after)
    ensures i <= after <= |text| && Parse(c, text, i) == es + Parse(c, text, after)
    decreases |es|
  {
    if es == [] {
      assert [] + Parse(c, text, i) == Parse(c, text, i);
    } else {
      var end := i + |c.dump(es[0])|;
      PrintedIsParsed(c, text, end + 1, es[1..], after);
      LineIsDecoded(c, text, i, es[0]);
      var rest := Parse(c, text, after);
      PrintStep(c, text, i, es[0], end, es[1..] + rest);
      EntriesJoin(es, rest);
    }
  }

  lemma EntriesAssociate(a: seq<Entry>, b: seq<Entry>, d: seq<Entry>)
    ensures a + (b + d) == a + b + d
  {}

  lemma EntriesJoin(es: seq<Entry>, more: seq<Entry>)
    requires es != []
    ensures [es[0]] + (es[1..] + more) == es + more
  {}

  lemma SpaceIsSkipped(c: Codec, text: string, i: nat)
    requires Advances(c) && i < |text| && IsSpace(text[i])
    ensures Parse(c, text, i) == Parse(c, text, i + 1)
  {}

  lemma PrintedIsRead(c: Codec, es: seq<Entry>)
    requires Advances(c) && Faithful(c)
    ensures Parse(c, Print(c, es), 0) == es
  {
    var text := Print(c, es);
    assert text[0..] == text + "";
    PrintIsLined(c, text, 0, es, "");
    PrintedIsParsed(c, text, 0, es, |text|);
    assert Parse(c, text, |text|) == [];
  }

  lemma {:induction false} ReversedAt(es: seq<Entry>, k: nat)
    requires k < |es|
    ensures |Reversed(es)| == |es| && Reversed(es)[k] == es[|es| - 1 - k]
  {
    if |es| > 1 { ReversedAt(es[1..], if k < |es| - 1 then k else 0); }
  }

  /** After any appends entry `k` of the history, the newest being 0, is the one appended `k` before the last. */
  lemma LoadedAt(c: Codec, es: seq<Entry>, history: seq<Entry>, k: nat)
    requires Advances(c) && Faithful(c) && history == Loaded(c, AppendedAll(c, None, es)) && k < |es| && k < 200
    ensures |history| == (if |es| < 200 then |es| else 200) && history[k] == es[|es| - 1 - k]
  {
    LoadIsLastNewestFirst(c, es);
    LastReversedAt(es, k);
  }

  lemma LastReversedAt(es: seq<Entry>, k: nat)
    requires k < |es| && k < 200
    ensures var history := Reversed(LastN(es, MAX_ENTRIES));
            |history| == (if |es| < 200 then |es| else 200) && history[k] == es[|es| - 1 - k]
  {
    ReversedAt(LastN(es, MAX_ENTRIES), k);
  }

  lemma LastOfMore(es: seq<Entry>, n: nat)
    requires es != [] && n > 0
    ensures LastN(LastN(es[..|es| - 1], n) + [es[|es| - 1]], n) == LastN(es, n)
  {}

  /** However many commands came, the history is the last 200 of them, newest first. */
  lemma {:induction false} LoadIsLastNewestFirst(c: Codec, es: seq<Entry>)
    requires Advances(c) && Faithful(c)
    ensures Entries(c, AppendedAll(c, None, es)) == LastN(es, MAX_ENTRIES)
    ensures Loaded(c, AppendedAll(c, None, es)) == Reversed(LastN(es, MAX_ENTRIES))
  {
    if es != [] {
      LoadIsLastNewestFirst(c, es[..|es| - 1]);
      LastOfMore(es, MAX_ENTRIES);
      PrintedIsRead(c, LastN(es, MAX_ENTRIES));
    }
  }

  // --- damage -----------------------------------------------------------------------------------

  /** Where the scan goes on after it tried position `j`. */
  function Next(c: Codec, text: string, j: nat): (n: nat)
    requires Advances(c) && j < |text|
    ensures j < n <= |text|
  {
    if c.decode(text, j).None? then FindBrace(text, j + 1) else c.decode(text, j).value.end
  }

  /** The scan from position `i` on tries to decode at `k`. */
  ghost predicate Tries(c: Codec, text: string, i: nat, k: nat)
    requires Advances(c) && i <= |text|
    decreases |text| - i
  {
    var j := SkipSpace(text, i);
    j < |text| && (k == j || Tries(c, text, Next(c, text, j), k))
  }

  /** The entries the scan from `i` on decodes at positions before `end`. */
  function Until(c: Codec, text: string, i: nat, end: nat): seq<Entry>
    requires Advances(c) && i <= |text|
    decreases |text| - i
  {
    var j := SkipSpace(text, i);
    if j == |text| || j >= end then []
    else
      var decoded := c.decode(text, j);
      (if decoded.Some? && decoded.value.value.Dict? then [decoded.value.value.entry] else [])
      + Until(c, text, Next(c, text, j), end)
  }

  /** A value decoded where the scan looks reaches past `end`. */
  ghost predicate Straddles(c: Codec, text: string, i: nat, end: nat, k: nat)
    requires Advances(c) && i <= |text|
  {
    k < end && Tries(c, text, i, k) && c.decode(text, k).Some? && c.decode(text, k).value.end > end
  }

  /** No value the scan decodes before `end` reaches past it. */
  ghost predicate Unbroken(c: Codec, text: string, i: nat, end: nat)
    requires Advances(c) && i <= |text|
  {
    forall k :: !Straddles(c, text, i, end, k)
  }

  lemma {:induction false} TriesForward(c: Codec, text: string, i: nat, k: nat)
    requires Advances(c) && i <= |text| && Tries(c, text, i, k)
    ensures i <= k < |text|
    decreases |text| - i
  {
    var j := SkipSpace(text, i);
    if k != j { TriesForward(c, text, Next(c, text, j), k); }
  }

  lemma {:induction false} BraceIsFound(text: string, i: nat, end: nat)
    requires i <= end < |text| && text[end] == '{'
    ensures FindBrace(text, i) <= end
    decreases end - i
  {
    if i < end && text[i] != '{' { BraceIsFound(text, i + 1, end); }
  }

  lemma {:induction false} SpaceEndsThere(text: string, i: nat, end: nat)
    requires i <= end < |text| && !IsSpace(text[end])
    ensures SkipSpace(text, i) <= end
    decreases end - i
  {
    if i < end && IsSpace(text[i]) { SpaceEndsThere(text, i + 1, end); }
  }

  /** One round of the scan before `end`: it goes on up to `end`, or past it by decoding a value that straddles. */
  lemma RoundBefore(c: Codec, text: string, i: nat, end: nat)
    requires Advances(c) && i <= end < |text| && text[end] == '{'
    ensures var j := SkipSpace(text, i);
            && j <= end
            && (j < end ==> (Next(c, text, j) > end <==> c.decode(text, j).Some? && c.decode(text, j).value.end > end))
  {
    SpaceEndsThere(text, i, end);
    var j := SkipSpace(text, i);
    if j < end { BraceIsFound(text, j + 1, end); }
  }

  /** The scan comes to the entry at `end` exactly when no value it decodes before reaches past it. */
  lemma {:induction false} ReachesUnlessStraddled(c: Codec, text: string, i: nat, end: nat)
    requires Advances(c) && i <= end < |text| && text[end] == '{'
    ensures Tries(c, text, i, end) <==> Unbroken(c, text, i, end)
    decreases |text| - i
  {
    var j := SkipSpace(text, i);
    RoundBefore(c, text, i, end);
    if j < end {
      var n := Next(c, text, j);
      if n > end {
        assert Straddles(c, text, i, end, j);
        if Tries(c, text, n, end) { TriesForward(c, text, n, end); }
      } else {
        ReachesUnlessStraddled(c, text, n, end);
        assert forall k :: Straddles(c, text, i, end, k) <==> Straddles(c, text, n, end, k);
      }
    } else {
      forall k: nat | k < end ensures !Tries(c, text, i, k) {
        if Tries(c, text, i, k) { TriesForward(c, text, Next(c, text, j), k); }
      }
    }
  }

  /** What the scan reads on its way to a position it tries comes first, and what stands there follows. */
  lemma {:induction false} ParseSplits(c: Codec, text: string, i: nat, end: nat)
    requires Advances(c) && i <= end < |text| && text[end] == '{' && Tries(c, text, i, end)
    ensures Parse(c, text, i) == Until(c, text, i, end) + Parse(c, text, end)
    decreases |text| - i
  {
    var j := SkipSpace(text, i);
    RoundBefore(c, text, i, end);
    if j < end {
      var n := Next(c, text, j);
      TriesForward(c, text, n, end);
      ParseSplits(c, text, n, end);
    } else {
      assert SkipSpace(text, end) == end;
    }
  }

  /** Older entries, a damaged stretch from `start` to `end`, and newer entries. */
  ghost predicate Damaged(c: Codec, text: string, start: nat, end: nat, before: seq<Entry>, es: seq<Entry>) {
    start <= end <= |text| && es != [] && text[..start] == Print(c, before) && text[end..] == Print(c, es)
  }

  /** The same, seen line by line. */
  ghost predicate DamagedLines(c: Codec, text: string, start: nat, end: nat, before: seq<Entry>, es: seq<Entry>) {
    start <= end < |text| && text[end] == '{' && Lined(c, text, 0, before, start) && Lined(c, text, end, es, |text|)
  }

  lemma NewerLines(c: Codec, text: string, end: nat, es: seq<Entry>)
    requires Faithful(c) && es != [] && end <= |text| && text[end..] == Print(c, es)
    ensures end < |text| && text[end] == '{' && Lined(c, text, end, es, |text|)
  {
    assert text[end..] == Print(c, es) + "";
    PrintIsLined(c, text, end, es, "");
    LineIsDecoded(c, text, end, es[0]);
  }

  lemma DamageHasLines(c: Codec, text: string, start: nat, end: nat, before: seq<Entry>, es: seq<Entry>)
    requires Faithful(c) && Damaged(c, text, start, end, before, es)
    ensures DamagedLines(c, text, start, end, before, es)
  {
    NewerLines(c, text, end, es);
    assert text[0..] == Print(c, before) + text[start..];
    PrintIsLined(c, text, 0, before, text[start..]);
  }

  lemma LinesAreRead(c: Codec, text: string, start: nat, end: nat, before: seq<Entry>, es: seq<Entry>)
    requires Advances(c) && Faithful(c) && DamagedLines(c, text, start, end, before, es)
    ensures Parse(c, text, 0) == before + Parse(c, text, start) && Parse(c, text, end) == es
  {
    PrintedIsParsed(c, text, 0, before, start);
    PrintedIsParsed(c, text, end, es, |text|);
    assert Parse(c, text, |text|) == [] && es + [] == es;
  }

  lemma ScanGoesOn(c: Codec, text: string, start: nat, end: nat)
    requires Advances(c) && start <= end < |text| && text[end] == '{'
    ensures Tries(c, text, start, end) <==> Unbroken(c, text, start, end)
    ensures Tries(c, text, start, end) ==> Parse(c, text, start) == Until(c, text, start, end) + Parse(c, text, end)
  {
    ReachesUnlessStraddled(c, text, start, end);
    if Tries(c, text, start, end) { ParseSplits(c, text, start, end); }
  }

  /**
   A damaged stretch does not orphan the entries around it: the scan comes to the first newer entry if and
   only if no value it decodes within the damage reaches past it, and then the older entries are read first,
   whatever the damage still decodes to next, and all newer entries last.
   */
  lemma NewerEntriesSurviveDamage(c: Codec, text: string, start: nat, end: nat, before: seq<Entry>, es: seq<Entry>)
    requires Advances(c) && Faithful(c) && Damaged(c, text, start, end, before, es)
    ensures Tries(c, text, start, end) <==> Unbroken(c, text, start, end)
    ensures Unbroken(c, text, start, end) ==> Parse(c, text, 0) == before + Until(c, text, start, end) + es
  {
    DamageHasLines(c, text, start, end, before, es);
    ScanSurvives(c, text, start, end, before, es);
  }

  lemma ScanSurvives(c: Codec, text: string, start: nat, end: nat, before: seq<Entry>, es: seq<Entry>)
    requires Advances(c) && Faithful(c) && DamagedLines(c, text, start, end, before, es)
    ensures Tries(c, text, start, end) <==> Unbroken(c, text, start, end)
    ensures Tries(c, text, start, end) ==> Parse(c, text, 0) == before + Until(c, text, start, end) + es
  {
    LinesAreRead(c, text, start, end, before, es);
    ScanGoesOn(c, text, start, end);
    EntriesAssociate(before, Until(c, text, start, end), es);
  }

  /** Nothing is decoded at the first character from `start` on that is not blank, nor at an opening brace. */
  ghost predicate Unreadable(c: Codec, text: string, start: nat, end: nat)
    requires start <= end <= |text|
  {
    forall k {:trigger c.decode(text, k)} :: start <= k < end && (text[k] == '{' || k == SkipSpace(text, start)) ==>
      c.decode(text, k).None?
  }

  /**
   In particular the damage leaves no trace when nothing can be decoded at its first character that is not
   blank and at its opening braces, whatever could be decoded in between, as in a line cut off by a crash.
   */
  lemma TornEntryIsSkipped(c: Codec, text: string, start: nat, end: nat, before: seq<Entry>, es: seq<Entry>)
    requires Advances(c) && Faithful(c) && Damaged(c, text, start, end, before, es) && Unreadable(c, text, start, end)
    ensures Parse(c, text, 0) == before + es
  {
    DamageHasLines(c, text, start, end, before, es);
    LinesAreRead(c, text, start, end, before, es);
    UnreadableIsSkipped(c, text, start, end);
  }

  lemma UnreadableIsSkipped(c: Codec, text: string, start: nat, end: nat)
    requires Advances(c) && start <= end < |text| && text[end] == '{' && Unreadable(c, text, start, end)
    ensures Parse(c, text, start) == Parse(c, text, end)
  {
    var j := SkipSpace(text, start);
    SpaceEndsThere(text, start, end);
    if j < end {
      var brace := FindBrace(text, j + 1);
      BraceIsFound(text, j + 1, end);
      FoundIsBrace(text, j + 1);
      BracesAreSkipped(c, text, brace, end);
    } else {
      assert SkipSpace(text, end) == end;
    }
  }

  lemma {:induction false} FoundIsBrace(text: string, i: nat)
    requires i <= |text|
    ensures FindBrace(text, i) < |text| ==> text[FindBrace(text, i)] == '{'
    decreases |text| - i
  {
    if i < |text| && text[i] != '{' { FoundIsBrace(text, i + 1); }
  }

  /** From brace to brace, none of which opens anything, the scan arrives at the entry. */
  lemma {:induction false} BracesAreSkipped(c: Codec, text: string, i: nat, end: nat)
    requires Advances(c) && i <= end < |text| && text[i] == '{' && text[end] == '{'
    requires forall k :: i <= k < end && text[k] == '{' ==> c.decode(text, k).None?
    ensures Parse(c, text, i) == Parse(c, text, end)
    decreases end - i
  {
    if i < end {
      assert SkipSpace(text, i) == i;
      BraceIsFound(text, i + 1, end);
      FoundIsBrace(text, i + 1);
      BracesAreSkipped(c, text, FindBrace(text, i + 1), end);
    }
  }
}
