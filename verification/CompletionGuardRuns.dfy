/** What the completion guard promises, over orders of hooks and over whole event traces. */
module CompletionGuardRuns {
  import opened Common
  import opened CompletionGuard

  // --- order independence -----------------------------------------------------------------------

  /** What the delivery of a run that wrote `text` is owed. */
  function Owed(r: Rules, text: string, content: string): Verdict {
    if r.silent(text) then Cancel
    else if r.trim(content) == r.trim(r.visible(text)) then Pass
    else Rewrite(r.visible(text))
  }

  /** The run messaged nobody, and the session holds nothing that belongs to another delivery or run. */
  predicate Undisturbed(s: State, k: Session, run: RunId) {
    && IsAnnounce(run) && !HasMessaged(s.marks, s.now, run, k)
    && k !in s.tools.flags && !HasPending(s, k)
    && (HasText(s, k) ==> s.lastTexts[k].run.Run? && s.lastTexts[k].run != run)
  }

  function After(s: State, time: nat): State { s.(now := s.now + time) }

  /** The answer remembered for what a run wrote. */
  function Answer(r: Rules, text: string): string { if r.silent(text) then "" else r.visible(text) }

  lemma JudgePending(r: Rules, s: State, k: Session, text: string, content: string)
    requires Sane(r) && HasPending(s, k) && !s.answers.pending[k].bySelf && s.answers.pending[k].answer == Answer(r, text)
    requires !CanAdopt(s, k) && r.trim(content) != ""
    ensures Judge(r, s, k, content).1 == Owed(r, text, content)
  {}

  lemma JudgeRaced(r: Rules, s: State, k: Session, content: string)
    requires Sane(r) && CanAdopt(s, k) && r.trim(content) != ""
    requires HasPending(s, k) ==> s.answers.pending[k].answer == "" && !s.answers.pending[k].bySelf
    ensures Judge(r, s, k, content).1 == Owed(r, s.lastTexts[k].text, content)
  {
    var t := Adopt(r, s, k);
    assert !CanAdopt(t, k) && k in t.answers.pending && t.answers.pending[k].answer == Answer(r, s.lastTexts[k].text);
  }

  /** The run ends after its text is known: the answer is remembered for a while. */
  lemma EndKnown(r: Rules, s: State, k: Session, run: RunId, text: string, d1: nat, d2: nat)
    requires Sane(r) && Undisturbed(s, k, run) && text != ""
    requires d1 < LAST_TEXT_TTL && d2 < (if r.silent(text) then EMPTY_PENDING_TTL else PENDING_TTL)
    ensures var t := After(OnAgentEnd(r, After(OnLlmOutput(s, k, run, text), d1), k, run, false), d2);
            HasPending(t, k) && !t.answers.pending[k].bySelf && t.answers.pending[k].answer == Answer(r, text)
            && !CanAdopt(t, k) && k !in t.tools.flags
  {
    var written := After(OnLlmOutput(s, k, run, text), d1);
    assert OwnText(written, k, run) == text && !HasMessaged(written.marks, written.now, run, k);
  }

  /** The run ends first: an empty answer is remembered, and its text is still fresh when it is needed. */
  lemma EndUnknown(r: Rules, s: State, k: Session, run: RunId, text: string, d1: nat, d2: nat)
    requires Sane(r) && Undisturbed(s, k, run) && text != "" && d2 <= RACED_MAX_AGE
    ensures var t := After(OnLlmOutput(After(OnAgentEnd(r, s, k, run, false), d1), k, run, text), d2);
            CanAdopt(t, k) && t.lastTexts[k].text == text && k !in t.tools.flags
            && (HasPending(t, k) ==> t.answers.pending[k].answer == "" && !t.answers.pending[k].bySelf)
  {
    assert OwnText(s, k, run) == "";
  }

  lemma NoEndYet(s: State, k: Session, run: RunId, text: string, d1: nat)
    requires Undisturbed(s, k, run) && text != "" && d1 <= RACED_MAX_AGE
    ensures var t := After(OnLlmOutput(s, k, run, text), d1);
            CanAdopt(t, k) && t.lastTexts[k].text == text && !HasPending(t, k) && k !in t.tools.flags
  {}

  /**
   For a completion run that messaged nobody and wrote visible text, the runtime's own delivery is
   replaced by the run's visible answer, or cancelled if the text asked for silence, in each order of
   the three hooks, with any delays inside the windows and nothing else of the session between.
   */
  lemma EveryOrderGivesTheAnswer(r: Rules, s: State, k: Session, run: RunId, text: string, content: string, d1: nat, d2: nat)
    requires Sane(r) && Undisturbed(s, k, run) && text != "" && r.trim(content) != ""
    ensures d1 < LAST_TEXT_TTL && d2 < (if r.silent(text) then EMPTY_PENDING_TTL else PENDING_TTL) ==>
              var t := After(OnAgentEnd(r, After(OnLlmOutput(s, k, run, text), d1), k, run, false), d2);
              OnSending(r, t, k, content).1 == Owed(r, text, content)
    ensures d2 <= RACED_MAX_AGE ==>
              var t := After(OnLlmOutput(After(OnAgentEnd(r, s, k, run, false), d1), k, run, text), d2);
              OnSending(r, t, k, content).1 == Owed(r, text, content)
    ensures d1 <= RACED_MAX_AGE ==>
              var t := After(OnLlmOutput(s, k, run, text), d1);
              OnSending(r, t, k, content).1 == Owed(r, text, content)
  {
    if d1 < LAST_TEXT_TTL && d2 < (if r.silent(text) then EMPTY_PENDING_TTL else PENDING_TTL) {
      EndKnown(r, s, k, run, text, d1, d2);
      JudgePending(r, After(OnAgentEnd(r, After(OnLlmOutput(s, k, run, text), d1), k, run, false), d2), k, text, content);
    }
    if d2 <= RACED_MAX_AGE {
      EndUnknown(r, s, k, run, text, d1, d2);
      JudgeRaced(r, After(OnLlmOutput(After(OnAgentEnd(r, s, k, run, false), d1), k, run, text), d2), k, content);
    }
    if d1 <= RACED_MAX_AGE {
      NoEndYet(s, k, run, text, d1);
      JudgeRaced(r, After(OnLlmOutput(s, k, run, text), d1), k, content);
    }
  }

  // --- attribution ------------------------------------------------------------------------------

  /** The latest send made by `run`, by any session. */
  function LastBy(sends: seq<Sent>, run: RunId): Option<Sent> {
    if sends == [] then None
    else if sends[|sends| - 1].run == run then Some(sends[|sends| - 1]) else LastBy(sends[..|sends| - 1], run)
  }

  /** The latest send made in session `k`, by any run. */
  function LastIn(sends: seq<Sent>, k: Session): Option<Sent> {
    if sends == [] then None
    else if sends[|sends| - 1].session == k then Some(sends[|sends| - 1]) else LastIn(sends[..|sends| - 1], k)
  }

  predicate Recent(now: int, s: Option<Sent>) { s.Some? && now < s.value.at + MESSAGED_TTL }

  ghost predicate MarksInv(m: Marks) {
    && (forall run: RunId :: run in m.byRun <==> run.Run? && LastBy(m.sends, run).Some?)
    && (forall run :: run in m.byRun && LastBy(m.sends, run).Some? ==>
          m.byRun[run].expiresAt == LastBy(m.sends, run).value.at + MESSAGED_TTL)
    && (forall k: Session :: k in m.bySession <==> LastIn(m.sends, k).Some?)
    && (forall k :: k in m.bySession && LastIn(m.sends, k).Some? ==>
          m.bySession[k] == Mark(LastIn(m.sends, k).value.at + MESSAGED_TTL, LastIn(m.sends, k).value.run))
  }

  lemma OneMoreSend(sends: seq<Sent>, x: Sent)
    ensures forall run :: LastBy(sends + [x], run) == if x.run == run then Some(x) else LastBy(sends, run)
    ensures forall k :: LastIn(sends + [x], k) == if x.session == k then Some(x) else LastIn(sends, k)
  {
    assert (sends + [x])[..|sends|] == sends;
  }

  lemma JudgeKeeps(r: Rules, s: State, k: Session, content: string)
    ensures Judge(r, s, k, content).0.marks == s.marks && Judge(r, s, k, content).0.tools == s.tools
  {}

  lemma OnlyToolCallsMark(r: Rules, s: State, e: Event)
    requires !e.ToolCall?
    ensures Step(r, s, e).marks == s.marks
  {
    if e.Sending? {
      JudgeKeeps(r, s.(tools := s.tools.(flags := s.tools.flags - {e.session})), e.session, e.content);
      JudgeKeeps(r, s, e.session, e.content);
    }
  }

  lemma {:induction false} MarksRun(r: Rules, es: seq<Event>)
    ensures MarksInv(Exec(r, es).marks)
  {
    if es != [] {
      var s, e := Exec(r, es[..|es| - 1]), es[|es| - 1];
      MarksRun(r, es[..|es| - 1]);
      if e.ToolCall? {
        OneMoreSend(s.marks.sends, Sent(s.now, e.run, e.session));
      } else {
        OnlyToolCallsMark(r, s, e);
      }
    }
  }

  // --- the tool-send flag -----------------------------------------------------------------------

  ghost predicate Distinct(ns: seq<nat>) { forall i, j :: 0 <= i < j < |ns| ==> ns[i] != ns[j] }

  /** A flag is raised once; a flag that excused a delivery is no longer up. */
  ghost predicate ToolsInv(t: Tools) {
    && Distinct(t.excused)
    && (forall i :: 0 <= i < |t.excused| ==> t.excused[i] < t.raised)
    && (forall k :: k in t.flags ==> t.flags[k].number < t.raised && t.flags[k].number !in t.excused)
    && (forall j, k :: j in t.flags && k in t.flags && j != k ==> t.flags[j].number != t.flags[k].number)
  }

  lemma ToolsStep(r: Rules, s: State, e: Event)
    requires ToolsInv(s.tools)
    ensures ToolsInv(Step(r, s, e).tools)
  {
    if e.Sending? {
      JudgeKeeps(r, s.(tools := s.tools.(flags := s.tools.flags - {e.session})), e.session, e.content);
      JudgeKeeps(r, s, e.session, e.content);
    }
  }

  lemma {:induction false} ToolsRun(r: Rules, es: seq<Event>)
    ensures ToolsInv(Exec(r, es).tools)
  {
    if es != [] {
      ToolsRun(r, es[..|es| - 1]);
      ToolsStep(r, Exec(r, es[..|es| - 1]), es[|es| - 1]);
    }
  }

  /**
   Over any trace a raised flag excuses at most one delivery, and the delivery it excuses passes
   untouched and changes nothing but the flag.
   */
  lemma FlagsExcuseOnce(r: Rules, es: seq<Event>, k: Session, content: string)
    ensures Distinct(Exec(r, es).tools.excused)
    ensures var s := Exec(r, es);
            var (t, verdict) := OnSending(r, s, k, content);
            t.tools.excused != s.tools.excused ==>
              && k in s.tools.flags && s.now - s.tools.flags[k].markedAt <= TOOL_SEND_GRACE
              && verdict == Pass && s.tools.flags[k].number !in s.tools.excused
              && t.tools.excused == s.tools.excused + [s.tools.flags[k].number] && t == s.(tools := t.tools)
  {
    ToolsRun(r, es);
    var s := Exec(r, es);
    JudgeKeeps(r, s.(tools := s.tools.(flags := s.tools.flags - {k})), k, content);
    JudgeKeeps(r, s, k, content);
  }

  // --- each answer at most once -----------------------------------------------------------------

  ghost predicate Reached(rs: seq<Reach>, n: nat) { exists i :: 0 <= i < |rs| && rs[i].number == n }

  /** Of two times, the first is a delivery made during the rescue post and the second is that rescue. */
  ghost predicate OnceEach(rs: seq<Reach>) {
    forall i, j :: 0 <= i < j < |rs| && rs[i].number == rs[j].number ==>
      rs[i].inFlight && !rs[i].byRescue && rs[j].byRescue
  }

  ghost predicate PendingInv(a: Answers, k: Session)
    requires k in a.pending
  {
    var p := a.pending[k];
    && p.number < a.count
    && (forall j :: j in a.pending && j != k ==> a.pending[j].number != p.number)
    && (!p.bySelf ==> !Reached(a.reached, p.number))
    && (p.bySelf || p.timer.Some? ==> !InFlight(a, k, p.number))
    && (p.bySelf ==> p.timer.None?)
  }

  /** While its rescue is under way an answer reached somebody at most through a delivery meanwhile. */
  ghost predicate RescueInv(a: Answers, k: Session, n: nat) {
    && n < a.count
    && (forall j :: j in a.pending && a.pending[j].number == n ==> j == k)
    && (forall i :: 0 <= i < |a.reached| && a.reached[i].number == n ==> a.reached[i].inFlight && !a.reached[i].byRescue)
    && (forall j :: InFlight(a, j, n) ==> j == k)
  }

  ghost predicate AnswersInv(a: Answers) {
    && OnceEach(a.reached)
    && (forall i :: 0 <= i < |a.reached| ==> a.reached[i].number < a.count)
    && (forall k :: k in a.pending ==> PendingInv(a, k))
    && (forall k: Session, n: nat :: InFlight(a, k, n) ==> RescueInv(a, k, n))
  }

  /** What is pending and in flight in `b` was so in `a`, and nothing new reached anybody. */
  lemma FewerKeep(a: Answers, b: Answers)
    requires AnswersInv(a) && b.reached == a.reached && b.count == a.count && b.rescues == a.rescues
    requires forall k :: k in b.pending ==> k in a.pending && b.pending[k] == a.pending[k]
    ensures AnswersInv(b)
  {
    assert forall j, n :: InFlight(b, j, n) == InFlight(a, j, n);
    forall k, n | InFlight(b, k, n) ensures RescueInv(b, k, n) { assert InFlight(a, k, n) && RescueInv(a, k, n); }
    forall k | k in b.pending ensures PendingInv(b, k) { assert PendingInv(a, k); }
  }

  lemma ClearKeeps(a: Answers, k: Session)
    requires AnswersInv(a)
    ensures AnswersInv(ClearPending(a, k))
  {
    FewerKeep(a, ClearPending(a, k));
  }

  lemma RememberKeeps(a: Answers, now: int, k: Session, answer: string)
    requires AnswersInv(a)
    ensures AnswersInv(Remember(a, now, k, answer))
  {
    var b := Remember(a, now, k, answer);
    forall j | j in b.pending ensures PendingInv(b, j) {
      assert InFlight(a, k, a.count) ==> RescueInv(a, k, a.count);
      if j != k { assert PendingInv(a, j); }
    }
    assert forall j, n :: InFlight(b, j, n) == InFlight(a, j, n);
    forall j, n | InFlight(b, j, n) ensures RescueInv(b, j, n) { assert InFlight(a, j, n) && RescueInv(a, j, n); }
  }

  lemma HandOutKeeps(a: Answers, k: Session)
    requires AnswersInv(a) && k in a.pending && !a.pending[k].bySelf
    ensures AnswersInv(HandOut(a, k))
  {
    var b, m := HandOut(a, k), a.pending[k].number;
    assert PendingInv(a, k);
    forall j | j in b.pending ensures PendingInv(b, j) { assert PendingInv(a, j); }
    assert forall j, n :: InFlight(b, j, n) == InFlight(a, j, n);
    forall j, n | InFlight(b, j, n) ensures RescueInv(b, j, n) {
      assert InFlight(a, j, n) && RescueInv(a, j, n);
    }
  }

  lemma RescueStartsKeeps(a: Answers, now: int, k: Session, account: bool)
    requires AnswersInv(a)
    ensures AnswersInv(RescueStarts(a, now, k, account))
  {
    var b := RescueStarts(a, now, k, account);
    if b == ClearPending(a, k) {
      ClearKeeps(a, k);
    } else if b != a {
      var m := a.pending[k].number;
      assert PendingInv(a, k);
      assert forall j, n :: InFlight(b, j, n) <==> InFlight(a, j, n) || (j == k && n == m);
      forall j | j in b.pending ensures PendingInv(b, j) { assert PendingInv(a, j); }
      forall j, n | InFlight(b, j, n) ensures RescueInv(b, j, n) {
        if InFlight(a, j, n) { assert RescueInv(a, j, n); }
      }
    }
  }

  lemma RescueEndsKeeps(a: Answers, now: int, k: Session, number: nat, ok: bool)
    requires AnswersInv(a)
    ensures AnswersInv(RescueEnds(a, now, k, number, ok))
  {
    if InFlight(a, k, number) {
      assert RescueInv(a, k, number);
      var b := a.(rescues := a.rescues[k := a.rescues[k] - {number}]);
      assert forall j, n :: InFlight(b, j, n) ==> InFlight(a, j, n);
      forall j | j in b.pending ensures PendingInv(b, j) { assert PendingInv(a, j); }
      forall j, n | InFlight(b, j, n) ensures RescueInv(b, j, n) { assert RescueInv(a, j, n); }
      if !ok {
        ClearKeeps(b, k);
      } else {
        RescueArrives(a, b, now, k, number);
      }
    }
  }

  /** No post of answer `n` is under way any more; only session `k` may still hold it. */
  ghost predicate Landed(b: Answers, k: Session, n: nat) {
    && n < b.count
    && (forall j :: j in b.pending && b.pending[j].number == n ==> j == k)
    && (forall i :: 0 <= i < |b.reached| && b.reached[i].number == n ==> b.reached[i].inFlight && !b.reached[i].byRescue)
    && (forall j :: !InFlight(b, j, n))
  }

  /** From `b` to `c` the rescue reached the owner; an entry that still waits with that answer is marked. */
  ghost predicate Arrived(b: Answers, c: Answers, k: Session, x: Reach) {
    && x.byRescue && c.count == b.count && c.rescues == b.rescues && c.reached == b.reached + [x]
    && c.pending.Keys == b.pending.Keys
    && (forall j :: j in c.pending ==> c.pending[j].number == b.pending[j].number && (j != k ==> c.pending[j] == b.pending[j]))
    && (k in c.pending ==>
          if c.pending[k].number == x.number then c.pending[k].bySelf && c.pending[k].timer.None?
          else c.pending[k] == b.pending[k])
  }

  lemma ArrivedOnce(b: Answers, c: Answers, k: Session, x: Reach)
    requires AnswersInv(b) && Landed(b, k, x.number) && Arrived(b, c, k, x)
    ensures OnceEach(c.reached) && forall i :: 0 <= i < |c.reached| ==> c.reached[i].number < c.count
  {}

  lemma ArrivedPending(b: Answers, c: Answers, k: Session, x: Reach, j: Session)
    requires AnswersInv(b) && Landed(b, k, x.number) && Arrived(b, c, k, x) && j in c.pending
    ensures PendingInv(c, j)
  {
    var n := c.pending[j].number;
    assert PendingInv(b, j);
    assert InFlight(c, j, n) == InFlight(b, j, n);
    if !c.pending[j].bySelf {
      assert n != x.number && !Reached(b.reached, n);
      assert forall i :: 0 <= i < |c.reached| ==> c.reached[i] == (if i < |b.reached| then b.reached[i] else x);
    }
  }

  lemma ArrivedFlight(b: Answers, c: Answers, k: Session, x: Reach, j: Session, n: nat)
    requires AnswersInv(b) && Landed(b, k, x.number) && Arrived(b, c, k, x) && InFlight(c, j, n)
    ensures RescueInv(c, j, n)
  {
    assert forall i, m :: InFlight(c, i, m) == InFlight(b, i, m);
    assert RescueInv(b, j, n) && n != x.number;
  }

  lemma ArrivedKeeps(b: Answers, c: Answers, k: Session, x: Reach)
    requires AnswersInv(b) && Landed(b, k, x.number) && Arrived(b, c, k, x)
    ensures AnswersInv(c)
  {
    ArrivedOnce(b, c, k, x);
    forall j | j in c.pending ensures PendingInv(c, j) { ArrivedPending(b, c, k, x, j); }
    forall j: Session, n: nat | InFlight(c, j, n) ensures RescueInv(c, j, n) { ArrivedFlight(b, c, k, x, j, n); }
  }

  lemma RescueLands(a: Answers, b: Answers, k: Session, number: nat)
    requires InFlight(a, k, number) && RescueInv(a, k, number)
    requires b == a.(rescues := a.rescues[k := a.rescues[k] - {number}])
    ensures Landed(b, k, number)
  {
    assert forall j :: InFlight(b, j, number) ==> InFlight(a, j, number);
    assert !InFlight(b, k, number);
  }

  /** The second half: the post succeeded. */
  lemma RescueArrives(a: Answers, b: Answers, now: int, k: Session, number: nat)
    requires InFlight(a, k, number) && RescueInv(a, k, number)
    requires b == a.(rescues := a.rescues[k := a.rescues[k] - {number}]) && AnswersInv(b)
    ensures AnswersInv(RescueEnds(a, now, k, number, true))
  {
    var c := RescueEnds(a, now, k, number, true);
    var x := Reach(number, true, !(k in a.pending && a.pending[k].number == number));
    RescueLands(a, b, k, number);
    assert c.reached == b.reached + [x];
    assert Arrived(b, c, k, x);
    ArrivedKeeps(b, c, k, x);
  }

  lemma AdoptKeeps(r: Rules, s: State, k: Session)
    requires AnswersInv(s.answers) && CanAdopt(s, k)
    ensures AnswersInv(Adopt(r, s, k).answers) && !Adopt(r, s, k).answers.pending[k].bySelf
  {
    RememberKeeps(s.answers, s.now, k, Answer(r, s.lastTexts[k].text));
  }

  lemma LookedKeeps(r: Rules, s: State, k: Session)
    requires AnswersInv(s.answers)
    ensures AnswersInv(Looked(r, s, k).answers)
  {
    ClearKeeps(s.answers, k);
    if CanAdopt(s, k) { AdoptKeeps(r, s, k); }
  }

  lemma SettleKeeps(r: Rules, s: State, k: Session, content: string)
    requires AnswersInv(s.answers) && k in s.answers.pending && !s.answers.pending[k].bySelf
    ensures AnswersInv(Settle(r, s, k, content).0.answers)
  {
    ClearKeeps(s.answers, k);
    HandOutKeeps(s.answers, k);
  }

  lemma JudgeKeepsAnswers(r: Rules, s: State, k: Session, content: string)
    requires AnswersInv(s.answers)
    ensures AnswersInv(Judge(r, s, k, content).0.answers)
  {
    var t := Looked(r, s, k);
    LookedKeeps(r, s, k);
    if k !in t.answers.pending {
      assert Refuse(r, t, k, content).0.answers == t.answers;
    } else if !t.answers.pending[k].bySelf {
      if CanAdopt(t, k) { AdoptKeeps(r, t, k); }
      SettleKeeps(r, LookedAgain(r, t, k), k, content);
    }
  }

  lemma AnswersStep(r: Rules, s: State, e: Event)
    requires AnswersInv(s.answers)
    ensures AnswersInv(Step(r, s, e).answers)
  {
    match e
    case Wait(_) =>
    case ToolCall(_, _, _) =>
    case LlmOutput(_, _, _) =>
    case AgentEnd(k, run, trigger) =>
      ClearKeeps(s.answers, k);
      RememberKeeps(s.answers, s.now, k, Answer(r, OwnText(s, k, run)));
    case Sending(k, content) =>
      JudgeKeepsAnswers(r, s.(tools := s.tools.(flags := s.tools.flags - {k})), k, content);
      JudgeKeepsAnswers(r, s, k, content);
    case RescueStart(k, account) => RescueStartsKeeps(s.answers, s.now, k, account);
    case RescueEnd(k, number, ok) => RescueEndsKeeps(s.answers, s.now, k, number, ok);
  }

  /**
   Over any trace each captured answer reaches the owner at most once, except that a delivery made while
   its rescue post is under way may be followed by that post succeeding.
   */
  lemma {:induction false} EachAnswerOnce(r: Rules, es: seq<Event>)
    ensures AnswersInv(Exec(r, es).answers) && OnceEach(Exec(r, es).answers.reached)
  {
    if es != [] {
      EachAnswerOnce(r, es[..|es| - 1]);
      AnswersStep(r, Exec(r, es[..|es| - 1]), es[|es| - 1]);
    }
  }

  ghost predicate HandedOutInFlight(rs: seq<Reach>, n: nat) { exists i :: 0 <= i < |rs| && rs[i] == Reach(n, false, true) }

  ghost predicate RescuedToo(rs: seq<Reach>, n: nat) { exists i :: 0 <= i < |rs| && rs[i].number == n && rs[i].byRescue }

  ghost predicate Twice(rs: seq<Reach>, n: nat) { exists i, j :: 0 <= i < j < |rs| && rs[i].number == n && rs[j].number == n }

  /**
   Over any trace an answer reaches the owner twice exactly when it was handed out while its rescue post was
   under way and that post succeeded.
   */
  lemma TwiceExactly(r: Rules, es: seq<Event>, n: nat)
    ensures var rs := Exec(r, es).answers.reached;
            Twice(rs, n) <==> HandedOutInFlight(rs, n) && RescuedToo(rs, n)
  {
    EachAnswerOnce(r, es);
    TwiceInOnce(Exec(r, es).answers.reached, n);
  }

  lemma TwiceInOnce(rs: seq<Reach>, n: nat)
    requires OnceEach(rs)
    ensures Twice(rs, n) <==> HandedOutInFlight(rs, n) && RescuedToo(rs, n)
  {
    if Twice(rs, n) {
      var i, j :| 0 <= i < j < |rs| && rs[i].number == n && rs[j].number == n;
      assert rs[i] == Reach(n, false, true) && rs[j].byRescue;
    }
    if HandedOutInFlight(rs, n) && RescuedToo(rs, n) {
      var i :| 0 <= i < |rs| && rs[i] == Reach(n, false, true);
      var j :| 0 <= j < |rs| && rs[j].number == n && rs[j].byRescue;
      assert i < j || j < i;
    }
  }

  // --- when the rescue fires --------------------------------------------------------------------

  /** A run wrote `text` and ended, `wait` ago. */
  function Ended(r: Rules, s: State, k: Session, run: RunId, text: string, d1: nat, wait: nat): State {
    After(OnAgentEnd(r, After(OnLlmOutput(s, k, run, text), d1), k, run, false), wait)
  }

  function Rescuing(t: State, k: Session, account: bool): State {
    t.(answers := RescueStarts(t.answers, t.now, k, account))
  }

  function Rescued(t: State, k: Session, number: nat, ok: bool): State {
    t.(answers := RescueEnds(t.answers, t.now, k, number, ok))
  }

  /** What a delivery gets that no answer is known for: cancelled if it is silent or was silenced, else as it is. */
  function Unanswered(r: Rules, s: State, k: Session, content: string): Verdict {
    var text := r.comparable(content);
    if text != "" && (r.silent(content) || (k in s.silenced && s.now < s.silenced[k].expiresAt && s.silenced[k].text == text))
    then Cancel else Pass
  }

  /** Nothing but the pending answer bears on a delivery in the session. */
  ghost predicate OnlyPending(t: State, k: Session) { !HasText(t, k) && k !in t.tools.flags }

  lemma AnswerIsHeld(r: Rules, s: State, k: Session, run: RunId, text: string, d1: nat, wait: nat)
    requires Sane(r) && Undisturbed(s, k, run) && !r.silent(text) && d1 < LAST_TEXT_TTL
    ensures var t := Ended(r, s, k, run, text, d1, wait);
            && OnlyPending(t, k) && t.now == s.now + d1 + wait && t.silenced == s.silenced
            && t.answers == Remember(s.answers, s.now + d1, k, r.visible(text)) && r.visible(text) != ""
  {
    var written := After(OnLlmOutput(s, k, run, text), d1);
    assert text != "" && OwnText(written, k, run) == text && !HasMessaged(written.marks, written.now, run, k);
  }

  lemma JudgeUnanswered(r: Rules, t: State, k: Session, content: string)
    requires OnlyPending(t, k) && !HasPending(t, k)
    ensures OnSending(r, t, k, content).1 == Unanswered(r, t, k, content)
  {}

  lemma JudgeRescued(r: Rules, t: State, k: Session, content: string)
    requires OnlyPending(t, k) && HasPending(t, k) && t.answers.pending[k].bySelf && r.trim(content) != ""
    ensures OnSending(r, t, k, content).1 == Cancel
  {}

  lemma RescueGoesOut(t: State, k: Session)
    requires k in t.answers.pending && t.answers.pending[k].timer.Some? && t.answers.pending[k].timer.value <= t.now
    requires t.now < t.answers.pending[k].expiresAt
    ensures var u, p := Rescuing(t, k, true), t.answers.pending[k];
            && k in u.answers.pending && u.answers.pending[k] == p.(timer := None)
            && InFlight(u.answers, k, p.number) && u.answers.reached == t.answers.reached
  {}

  lemma RescueComesBack(t: State, k: Session, ok: bool)
    requires k in t.answers.pending && InFlight(t.answers, k, t.answers.pending[k].number)
    ensures var n := t.answers.pending[k].number;
            var u := Rescued(t, k, n, ok);
            if ok then
              && k in u.answers.pending && u.answers.pending[k].bySelf
              && u.answers.pending[k].expiresAt == t.now + SUPPRESS_AFTER_SELF
              && u.answers.reached == t.answers.reached + [Reach(n, true, false)]
            else k !in u.answers.pending && u.answers.reached == t.answers.reached
  {}

  /**
   A spoken answer was captured and its rescue fires when it is due, `wait` after the run ended. A delivery
   during the post is corrected like any other. One within 30 s after the post succeeded is swallowed, as the
   owner has the answer. But after a post that failed, without an account, and past the 30 s nothing is known of
   the answer any more: the raw text goes through as it is, unless it is itself silent.
   */
  lemma RescueDecides(r: Rules, s: State, k: Session, run: RunId, text: string, content: string,
                      d1: nat, wait: nat, d3: nat, ok: bool, d4: nat)
    requires Sane(r) && Undisturbed(s, k, run) && !r.silent(text) && r.trim(content) != ""
    requires d1 < LAST_TEXT_TTL && SELF_DELIVER_AFTER <= wait < PENDING_TTL
    ensures var t := Ended(r, s, k, run, text, d1, wait);
            var during := After(Rescuing(t, k, true), d3);
            var after := After(Rescued(during, k, s.answers.count, ok), d4);
            && (wait + d3 < PENDING_TTL ==> OnSending(r, during, k, content).1 == Owed(r, text, content))
            && (ok ==> after.answers.reached == s.answers.reached + [Reach(s.answers.count, true, false)])
            && OnSending(r, after, k, content).1 ==
                 (if ok && d4 < SUPPRESS_AFTER_SELF then Cancel else Unanswered(r, after, k, content))
    ensures var lost := After(Rescuing(Ended(r, s, k, run, text, d1, wait), k, false), d3);
            OnSending(r, lost, k, content).1 == Unanswered(r, lost, k, content)
  {
    var t := Ended(r, s, k, run, text, d1, wait);
    AnswerIsHeld(r, s, k, run, text, d1, wait);
    RescueGoesOut(t, k);
    var during := After(Rescuing(t, k, true), d3);
    if wait + d3 < PENDING_TTL { JudgePending(r, during, k, text, content); }
    RescueComesBack(during, k, ok);
    var after := After(Rescued(during, k, s.answers.count, ok), d4);
    if ok && d4 < SUPPRESS_AFTER_SELF { JudgeRescued(r, after, k, content); } else { JudgeUnanswered(r, after, k, content); }
    JudgeUnanswered(r, After(Rescuing(t, k, false), d3), k, content);
  }

  // --- what makes it at most once ---------------------------------------------------------------

  ghost predicate Posting(a: Answers, k: Session) { exists n: nat :: InFlight(a, k, n) }

  /** No delivery is judged in a session while a rescue post of that session is under way. */
  ghost predicate RescuesUndisturbed(r: Rules, es: seq<Event>) {
    forall i :: 0 <= i < |es| && es[i].Sending? ==> !Posting(Exec(r, es[..i]).answers, es[i].session)
  }

  ghost predicate NoneMeanwhile(rs: seq<Reach>) { forall i :: 0 <= i < |rs| ==> rs[i].byRescue || !rs[i].inFlight }

  lemma JudgedQuietly(r: Rules, s: State, k: Session, content: string)
    requires !Posting(s.answers, k) && NoneMeanwhile(s.answers.reached)
    ensures NoneMeanwhile(Judge(r, s, k, content).0.answers.reached)
  {
    var t := Looked(r, s, k);
    assert t.answers.rescues == s.answers.rescues && t.answers.reached == s.answers.reached;
    if k in t.answers.pending {
      var u := LookedAgain(r, t, k);
      assert u.answers.rescues == s.answers.rescues && u.answers.reached == s.answers.reached;
      assert !InFlight(s.answers, k, u.answers.pending[k].number);
      assert !InFlight(u.answers, k, u.answers.pending[k].number);
    }
  }

  lemma {:induction false} QuietRun(r: Rules, es: seq<Event>)
    requires RescuesUndisturbed(r, es)
    ensures NoneMeanwhile(Exec(r, es).answers.reached)
  {
    if es != [] {
      var before, e := es[..|es| - 1], es[|es| - 1];
      forall i | 0 <= i < |before| && before[i].Sending?
        ensures !Posting(Exec(r, before[..i]).answers, before[i].session)
      {
        assert before[..i] == es[..i];
      }
      QuietRun(r, before);
      var s := Exec(r, before);
      if e.Sending? {
        assert es[|es| - 1].Sending?;
        JudgedQuietly(r, s.(tools := s.tools.(flags := s.tools.flags - {e.session})), e.session, e.content);
        JudgedQuietly(r, s, e.session, e.content);
      }
    }
  }

  /** With rescue posts undisturbed, each captured answer reaches the owner at most once. */
  lemma UndisturbedRescuesReachOnce(r: Rules, es: seq<Event>, i: nat, j: nat)
    requires RescuesUndisturbed(r, es)
    requires i < j < |Exec(r, es).answers.reached|
    ensures Exec(r, es).answers.reached[i].number != Exec(r, es).answers.reached[j].number
  {
    QuietRun(r, es);
    EachAnswerOnce(r, es);
  }

  lemma ExecOne(r: Rules, es: seq<Event>, s: State, e: Event) returns (more: seq<Event>, t: State)
    requires s == Exec(r, es)
    ensures more == es + [e] && t == Step(r, s, e) == Exec(r, more)
  {
    more, t := es + [e], Step(r, s, e);
    assert more[..|es|] == es;
  }

  /** A completion run wrote an answer and ended, and five seconds later its rescue is posting. */
  lemma RescuePosting(r: Rules, run: RunId, text: string) returns (es: seq<Event>, s: State)
    requires Sane(r) && IsAnnounce(run) && !r.silent(text)
    ensures s == Exec(r, es)
    ensures s.answers == Answers(map[0 := Pending(0, r.visible(text), PENDING_TTL, false, None)], map[0 := {0}], 1, [])
    ensures s.now == 5_000 && s.tools == START.tools
  {
    assert text != "" && r.visible(text) != "";
    es, s := ExecOne(r, [], START, LlmOutput(0, run, text));
    es, s := ExecOne(r, es, s, AgentEnd(0, run, false));
    assert s.answers == Remember(START.answers, 0, 0, r.visible(text));
    es, s := ExecOne(r, es, s, Wait(5_000));
    var waited := s.answers;
    assert s.now == 5_000 && waited.pending[0] == Pending(0, r.visible(text), PENDING_TTL, false, Some(5_000));
    es, s := ExecOne(r, es, s, RescueStart(0, true));
    assert {} + {waited.pending[0].number} == {0};
    assert s.answers == waited.(pending := map[0 := waited.pending[0].(timer := None)], rescues := map[0 := {0}]);
  }

  /** Without that the owner reads the same answer twice: the delivery comes while the rescue is posting. */
  lemma DeliveryDuringRescueReachesTwice(r: Rules, run: RunId, text: string, content: string) returns (es: seq<Event>)
    requires Sane(r) && IsAnnounce(run) && !r.silent(text) && r.trim(content) != ""
    ensures Exec(r, es).answers.reached == [Reach(0, false, true), Reach(0, true, true)]
  {
    var s, t, u;
    es, s := RescuePosting(r, run, text);
    assert HasPending(s, 0) && s.answers.pending[0].answer != "";
    es, t := ExecOne(r, es, s, Sending(0, content));
    assert t.answers == HandOut(s.answers, 0);
    es, u := ExecOne(r, es, t, RescueEnd(0, 0, true));
  }
}
