/** Python's notions of white space and lines, as `str.strip` and `str.splitlines` use them. */
module Text {
  predicate IsSpace(c: char) {
    var n := c as int;
    || 0x09 <= n <= 0x0d || 0x1c <= n <= 0x20 || n == 0x85 || n == 0xa0 || n == 0x1680 || 0x2000 <= n <= 0x200a
    || n == 0x2028 || n == 0x2029 || n == 0x202f || n == 0x205f || n == 0x3000
  }

  function LStrip(s: string): string { if s != "" && IsSpace(s[0]) then LStrip(s[1..]) else s }

  function RStrip(s: string): string { if s != "" && IsSpace(s[|s| - 1]) then RStrip(s[..|s| - 1]) else s }

  function Strip(s: string): string { RStrip(LStrip(s)) }

  predicate Trimmed(s: string) { s == "" || (!IsSpace(s[0]) && !IsSpace(s[|s| - 1])) }

  lemma {:induction false} RStripKeepsHead(s: string)
    ensures RStrip(s) <= s && (RStrip(s) != "" ==> RStrip(s)[0] == s[0] && !IsSpace(RStrip(s)[|RStrip(s)| - 1]))
  {
    if s != "" && IsSpace(s[|s| - 1]) { RStripKeepsHead(s[..|s| - 1]); }
  }

  lemma {:induction false} LStripHead(s: string)
    ensures LStrip(s) != "" ==> !IsSpace(LStrip(s)[0])
  {
    if s != "" && IsSpace(s[0]) { LStripHead(s[1..]); }
  }

  /** What is stripped is trimmed, and what is trimmed is left alone. */
  lemma StripTrims(s: string)
    ensures Trimmed(Strip(s))
    ensures Strip(s) == s <==> Trimmed(s)
  {
    LStripHead(s);
    RStripKeepsHead(LStrip(s));
  }

  // --- lines ------------------------------------------------------------------------------------

  predicate IsBreak(c: char) {
    var n := c as int;
    0x0a <= n <= 0x0d || 0x1c <= n <= 0x1e || n == 0x85 || n == 0x2028 || n == 0x2029
  }

  predicate OneLine(s: string) { forall i :: 0 <= i < |s| ==> !IsBreak(s[i]) }

  /** The position of the first line break, or the length. */
  function FirstBreak(s: string): (n: nat)
    ensures n <= |s| && OneLine(s[..n]) && (n < |s| ==> IsBreak(s[n]))
  {
    if s == "" || IsBreak(s[0]) then 0 else 1 + FirstBreak(s[1..])
  }

  function SplitLines(s: string): seq<string>
    decreases |s|
  {
    if s == "" then []
    else
      var n := FirstBreak(s);
      var past := if n == |s| then n else if s[n] == '\r' && n + 1 < |s| && s[n + 1] == '\n' then n + 2 else n + 1;
      [s[..n]] + SplitLines(s[past..])
  }

  lemma {:induction false} FirstBreakAt(a: string, c: char, b: string)
    requires OneLine(a) && IsBreak(c)
    ensures FirstBreak(a + [c] + b) == |a|
  {
    var s := a + [c] + b;
    if a == "" {
      assert s[0] == c;
    } else {
      assert s[0] == a[0] && s[1..] == a[1..] + [c] + b;
      FirstBreakAt(a[1..], c, b);
    }
  }

  /** A line and its newline are split off the rest. */
  lemma LineSplitOff(a: string, b: string)
    requires OneLine(a)
    ensures SplitLines(a + "\n" + b) == [a] + SplitLines(b)
  {
    var s := a + "\n" + b;
    FirstBreakAt(a, '\n', b);
    assert s[..|a|] == a && s[|a|] == '\n' && s[|a| + 1..] == b;
  }

  lemma {:induction false} LinesHaveNoBreaks(s: string)
    ensures forall i :: 0 <= i < |SplitLines(s)| ==> OneLine(SplitLines(s)[i])
    decreases |s|
  {
    if s != "" {
      var n := FirstBreak(s);
      var past := if n == |s| then n else if s[n] == '\r' && n + 1 < |s| && s[n + 1] == '\n' then n + 2 else n + 1;
      LinesHaveNoBreaks(s[past..]);
    }
  }

  lemma {:induction false} StripIsPart(s: string)
    ensures |Strip(s)| <= |s| && (OneLine(s) ==> OneLine(Strip(s)))
  {
    LStripIsPart(s);
    RStripKeepsHead(LStrip(s));
  }

  lemma {:induction false} LStripIsPart(s: string)
    ensures |LStrip(s)| <= |s| && LStrip(s) == s[|s| - |LStrip(s)|..]
  {
    if s != "" && IsSpace(s[0]) { LStripIsPart(s[1..]); }
  }
}
