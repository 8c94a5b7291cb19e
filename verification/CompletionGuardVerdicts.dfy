/** What the completion guard decides, from what happened before: at the end of a run and for each delivery. */
module CompletionGuardVerdicts {
  import opened Common
  import opened CompletionGuard
  import opened CompletionGuardRuns

  // --- what a trace tells -----------------------------------------------------------------------

  function TimeOf(es: seq<Event>): int {
    if es == [] then 0
    else TimeOf(es[..|es| - 1]) + if es[|es| - 1].Wait? then es[|es| - 1].time else 0
  }

  /** The sends the agent made itself, in order. */
  function SendsOf(es: seq<Event>): seq<Sent> {
    if es == [] then []
    else
      var before, e := es[..|es| - 1], es[|es| - 1];
      SendsOf(before) + if e.ToolCall? then [Sent(TimeOf(before), e.run, e.session)] else []
  }

  /** The time of the last own send into session `k` that no delivery of the session has followed. */
  function SendUnderWay(es: seq<Event>, k: Session): Option<int> {
    if es == [] then None
    else
      var before, e := es[..|es| - 1], es[|es| - 1];
      if e.ToolCall? && e.target == k then Some(TimeOf(before))
      else if e.Sending? && e.session == k then None
      else SendUnderWay(before, k)
  }

  /** The machine knows the time, the sends, and which own sends are under way. */
  ghost predicate Told(s: State, es: seq<Event>) {
    && s.now == TimeOf(es) && s.marks.sends == SendsOf(es)
    && (forall k :: k in s.tools.flags <==> SendUnderWay(es, k).Some?)
    && (forall k :: k in s.tools.flags ==> SendUnderWay(es, k) == Some(s.tools.flags[k].markedAt))
  }

  lemma SendingTakesFlag(r: Rules, s: State, k: Session, content: string)
    ensures var t := OnSending(r, s, k, content).0;
            t.now == s.now && t.marks == s.marks && t.tools.flags == s.tools.flags - {k}
  {
    JudgeKeeps(r, s.(tools := s.tools.(flags := s.tools.flags - {k})), k, content);
    JudgeKeeps(r, s, k, content);
    JudgeKeepsTime(r, s.(tools := s.tools.(flags := s.tools.flags - {k})), k, content);
    JudgeKeepsTime(r, s, k, content);
  }

  lemma JudgeKeepsTime(r: Rules, s: State, k: Session, content: string)
    ensures Judge(r, s, k, content).0.now == s.now
  {}

  lemma OthersTellNothing(r: Rules, s: State, e: Event)
    requires e.LlmOutput? || e.AgentEnd? || e.RescueStart? || e.RescueEnd?
    ensures Step(r, s, e).now == s.now && Step(r, s, e).marks == s.marks && Step(r, s, e).tools == s.tools
  {}

  lemma {:induction false} TraceTells(r: Rules, es: seq<Event>)
    ensures Told(Exec(r, es), es)
  {
    if es != [] {
      var before, e := es[..|es| - 1], es[|es| - 1];
      var s := Exec(r, before);
      TraceTells(r, before);
      match e
      case Wait(_) =>
      case ToolCall(_, _, _) =>
      case Sending(k, content) => SendingTakesFlag(r, s, k, content);
      case _ => OthersTellNothing(r, s, e);
    }
  }

  /** The run counts as having messaged the owner: it sent itself, or nobody else known sent last. */
  predicate MessagedIn(es: seq<Event>, run: RunId, k: Session) {
    var own, last := LastBy(SendsOf(es), run), LastIn(SendsOf(es), k);
    || (run.Run? && Recent(TimeOf(es), own))
    || (Recent(TimeOf(es), last) && (run.Unknown? || last.value.run in {Unknown, run}))
  }

  /**
   Over any trace a run counts as having messaged the owner exactly when, in the last ten minutes, it made a
   send itself, or the latest send of the session is that recent and neither id tells that it was another run's.
   */
  lemma MessagedExactly(r: Rules, es: seq<Event>, run: RunId, k: Session)
    ensures HasMessaged(Exec(r, es).marks, Exec(r, es).now, run, k) <==> MessagedIn(es, run, k)
  {
    TraceTells(r, es);
    MarksRun(r, es);
  }

  // --- captured text ----------------------------------------------------------------------------

  /** Text that is captured has its run, its kind and its time with it. */
  ghost predicate TextsInv(s: State) {
    forall k :: k in s.lastTexts ==>
      var text := s.lastTexts[k];
      text.text != "" && text.completion == IsAnnounce(text.run) && text.expiresAt == text.capturedAt + 900_000
  }

  lemma JudgeKeepsTexts(r: Rules, s: State, k: Session, content: string)
    ensures forall j :: j in Judge(r, s, k, content).0.lastTexts ==>
              j in s.lastTexts && Judge(r, s, k, content).0.lastTexts[j] == s.lastTexts[j]
  {}

  lemma TextsStep(r: Rules, s: State, e: Event)
    requires TextsInv(s)
    ensures TextsInv(Step(r, s, e))
  {
    if e.Sending? {
      JudgeKeepsTexts(r, s.(tools := s.tools.(flags := s.tools.flags - {e.session})), e.session, e.content);
      JudgeKeepsTexts(r, s, e.session, e.content);
    }
  }

  lemma {:induction false} TextsRun(r: Rules, es: seq<Event>)
    ensures TextsInv(Exec(r, es))
  {
    if es != [] {
      TextsRun(r, es[..|es| - 1]);
      TextsStep(r, Exec(r, es[..|es| - 1]), es[|es| - 1]);
    }
  }

  // --- the end of a run -------------------------------------------------------------------------

  predicate Completes(run: RunId, trigger: bool) { trigger || (run.Run? && run.announce) }

  /** The text the ending run may call its own: captured in the last 15 minutes and not known to be another's. */
  function Own(s: State, k: Session, run: RunId): string {
    if k in s.lastTexts && s.now - s.lastTexts[k].capturedAt < 900_000
       && (run.Unknown? || s.lastTexts[k].run in {Unknown, run})
    then s.lastTexts[k].text else ""
  }

  /** The prose a silent text carries beside its token. */
  function Prose(r: Rules, text: string): string { r.comparable(r.dropped(text)) }

  function Capture(a: Answers, now: int, k: Session, answer: string): Answers {
    var p := if answer == "" then Pending(a.count, "", now + 15_000, false, None)
             else Pending(a.count, answer, now + 60_000, false, Some(now + 5_000));
    Answers(a.pending[k := p], a.rescues, a.count + 1, a.reached)
  }

  /**
   Over any trace: the end of a run that is no completion changes nothing for deliveries. A completion run that
   counts as having messaged the owner leaves nothing pending in its session and captures no answer; it leaves a
   silence ask exactly when its own text was silent and carried prose. Any other completion run leaves its own
   visible answer pending, or an empty one, and nothing else.
   */
  lemma EndDecides(r: Rules, es: seq<Event>, s: State, k: Session, run: RunId, trigger: bool)
    requires s == Exec(r, es)
    ensures var t, text := Step(r, s, AgentEnd(k, run, trigger)), Own(s, k, run);
            && t == s.(answers := t.answers, silenced := t.silenced, lastTexts := s.lastTexts - {k})
            && if !Completes(run, trigger) then t.answers == s.answers && t.silenced == s.silenced
               else if MessagedIn(es, run, k) then
                 && t.answers == Answers(s.answers.pending - {k}, s.answers.rescues, s.answers.count, s.answers.reached)
                 && t.silenced == (if r.silent(text) && Prose(r, text) != ""
                                   then s.silenced[k := Silenced(Prose(r, text), s.now + 15_000)] else s.silenced)
               else t.answers == Capture(s.answers, s.now, k, Answer(r, text)) && t.silenced == s.silenced
  {
    assert HasMessaged(s.marks, s.now, run, k) <==> MessagedIn(es, run, k) by { MessagedExactly(r, es, run, k); }
    assert TextsInv(s) by { TextsRun(r, es); }
    OwnIsOwnText(s, k, run);
    if Completes(run, trigger) {
      if MessagedIn(es, run, k) { MessagedEnd(r, s, k, run, trigger); } else { CapturedEnd(r, s, k, run, trigger); }
    }
  }

  lemma OwnIsOwnText(s: State, k: Session, run: RunId)
    requires TextsInv(s)
    ensures OwnText(s, k, run) == Own(s, k, run)
  {}

  lemma MessagedEnd(r: Rules, s: State, k: Session, run: RunId, trigger: bool)
    requires Completes(run, trigger) && HasMessaged(s.marks, s.now, run, k)
    ensures var t, text := OnAgentEnd(r, s, k, run, trigger), OwnText(s, k, run);
            && t.answers == Answers(s.answers.pending - {k}, s.answers.rescues, s.answers.count, s.answers.reached)
            && t.silenced == (if r.silent(text) && Prose(r, text) != ""
                              then s.silenced[k := Silenced(Prose(r, text), s.now + 15_000)] else s.silenced)
            && t == s.(answers := t.answers, silenced := t.silenced, lastTexts := s.lastTexts - {k})
  {}

  lemma CapturedEnd(r: Rules, s: State, k: Session, run: RunId, trigger: bool)
    requires Completes(run, trigger) && !HasMessaged(s.marks, s.now, run, k)
    ensures var t, text := OnAgentEnd(r, s, k, run, trigger), OwnText(s, k, run);
            && t.answers == Capture(s.answers, s.now, k, Answer(r, text))
            && t == s.(answers := t.answers, lastTexts := s.lastTexts - {k})
  {}

  // --- what other sessions do not touch ---------------------------------------------------------

  /** The event is of another session and sends nothing into this one. */
  predicate Apart(e: Event, k: Session) {
    match e
    case Wait(_) => true
    case ToolCall(j, _, target) => j != k && target != k
    case LlmOutput(j, _, _) => j != k
    case AgentEnd(j, _, _) => j != k
    case Sending(j, _) => j != k
    case RescueStart(j, _) => j != k
    case RescueEnd(j, _, _) => j != k
  }

  /** What the guard holds about session `k` is the same, only later. */
  ghost predicate SameAt(s: State, t: State, k: Session) {
    && s.now <= t.now
    && (k in t.tools.flags <==> k in s.tools.flags) && (k in s.tools.flags ==> t.tools.flags[k] == s.tools.flags[k])
    && (k in t.lastTexts <==> k in s.lastTexts) && (k in s.lastTexts ==> t.lastTexts[k] == s.lastTexts[k])
    && (k in t.silenced <==> k in s.silenced) && (k in s.silenced ==> t.silenced[k] == s.silenced[k])
    && (k in t.answers.pending <==> k in s.answers.pending)
    && (k in s.answers.pending ==> t.answers.pending[k] == s.answers.pending[k])
  }

  lemma SameAtTwice(s: State, t: State, u: State, k: Session)
    requires SameAt(s, t, k) && SameAt(t, u, k)
    ensures SameAt(s, u, k)
  {}

  lemma LookedIsApart(r: Rules, s: State, j: Session, k: Session)
    requires j != k
    ensures SameAt(s, Looked(r, s, j), k)
    ensures j in s.answers.pending ==> SameAt(s, LookedAgain(r, s, j), k)
  {}

  lemma SettledIsApart(r: Rules, s: State, j: Session, content: string, k: Session)
    requires j != k
    ensures SameAt(s, Refuse(r, s, j, content).0, k)
    ensures j in s.answers.pending ==> SameAt(s, Settle(r, s, j, content).0, k)
  {}

  lemma JudgeIsApart(r: Rules, s: State, j: Session, content: string, k: Session)
    requires j != k
    ensures SameAt(s, Judge(r, s, j, content).0, k)
  {
    var t := Looked(r, s, j);
    LookedIsApart(r, s, j, k);
    if j !in t.answers.pending {
      SettledIsApart(r, t, j, content, k);
      SameAtTwice(s, t, Refuse(r, t, j, content).0, k);
    } else if r.trim(content) != "" && !t.answers.pending[j].bySelf {
      var u := LookedAgain(r, t, j);
      LookedIsApart(r, t, j, k);
      SettledIsApart(r, u, j, content, k);
      SameAtTwice(s, t, u, k);
      SameAtTwice(s, u, Settle(r, u, j, content).0, k);
    }
  }

  lemma SendingIsApart(r: Rules, s: State, j: Session, content: string, k: Session)
    requires j != k
    ensures SameAt(s, OnSending(r, s, j, content).0, k)
  {
    JudgeIsApart(r, s.(tools := s.tools.(flags := s.tools.flags - {j})), j, content, k);
    JudgeIsApart(r, s, j, content, k);
  }

  lemma ApartKeeps(r: Rules, s: State, e: Event, k: Session)
    requires Apart(e, k)
    ensures SameAt(s, Step(r, s, e), k)
  {
    if e.Sending? { SendingIsApart(r, s, e.session, e.content, k); }
  }

  ghost predicate AllApart(es: seq<Event>, k: Session) { forall i :: 0 <= i < |es| ==> Apart(es[i], k) }

  lemma OneMore(r: Rules, es: seq<Event>, more: seq<Event>)
    requires more != []
    ensures Exec(r, es + more) == Step(r, Exec(r, es + more[..|more| - 1]), more[|more| - 1])
  {
    assert (es + more)[..|es + more| - 1] == es + more[..|more| - 1];
  }

  lemma {:induction false} ApartRun(r: Rules, es: seq<Event>, more: seq<Event>, k: Session)
    requires AllApart(more, k)
    ensures SameAt(Exec(r, es), Exec(r, es + more), k)
    decreases |more|
  {
    if more == [] {
      assert es + more == es;
    } else {
      var n := |more| - 1;
      ApartRun(r, es, more[..n], k);
      OneMore(r, es, more);
      ApartKeeps(r, Exec(r, es + more[..n]), more[n], k);
      SameAtTwice(Exec(r, es), Exec(r, es + more[..n]), Exec(r, es + more), k);
    }
  }

  // --- a delivery -------------------------------------------------------------------------------

  /** The agent's own send: its flag is at most three seconds old. */
  predicate Excused(s: State, k: Session) { k in s.tools.flags && s.now - s.tools.flags[k].markedAt <= 3_000 }

  /** Text of a completion run, at most ten seconds old, whose end has not come yet. */
  predicate Raced(s: State, k: Session) {
    k in s.lastTexts && s.lastTexts[k].completion && s.now - s.lastTexts[k].capturedAt <= 10_000
  }

  predicate RacedMessaged(s: State, k: Session) {
    Raced(s, k) && HasMessaged(s.marks, s.now, s.lastTexts[k].run, k)
  }

  /** The answer known for a delivery in the session: captured at the run's end, or read off its fresh text. */
  function Known(r: Rules, s: State, k: Session): Option<string> {
    var held := k in s.answers.pending && s.now < s.answers.pending[k].expiresAt;
    if held && s.answers.pending[k].answer != "" then Some(s.answers.pending[k].answer)
    else if Raced(s, k) && !RacedMessaged(s, k) then Some(Answer(r, s.lastTexts[k].text))
    else if held then Some("") else None
  }

  /** The rescue has already delivered the answer. */
  predicate Delivered(s: State, k: Session) {
    k in s.answers.pending && s.now < s.answers.pending[k].expiresAt && s.answers.pending[k].bySelf
  }

  /** The delivery carries what a run wanted kept internal. */
  predicate Internal(r: Rules, s: State, k: Session, content: string) {
    var text := r.comparable(content);
    && text != ""
    && (|| r.silent(content)
        || (k in s.silenced && s.now < s.silenced[k].expiresAt && s.silenced[k].text == text)
        || (RacedMessaged(s, k) && r.silent(s.lastTexts[k].text) && Prose(r, s.lastTexts[k].text) == text))
  }

  /** Entries that were delivered by the rescue hold a spoken answer. */
  ghost predicate DeliveredSpoke(s: State) {
    forall k :: k in s.answers.pending && s.answers.pending[k].bySelf ==> s.answers.pending[k].answer != ""
  }

  /** What a delivery that is not the agent's own send gets. */
  function Due(r: Rules, s: State, k: Session, content: string): Verdict {
    var known := Known(r, s, k);
    if known.None? then (if Internal(r, s, k, content) then Cancel else Pass)
    else if r.trim(content) == "" then Pass
    else if Delivered(s, k) || known.value == "" then Cancel
    else if r.trim(content) == r.trim(known.value) then Pass else Rewrite(known.value)
  }

  lemma RacedIsFresh(s: State, k: Session)
    requires TextsInv(s)
    ensures HasRaced(s, k) <==> Raced(s, k)
    ensures CanAdopt(s, k) <==> Raced(s, k) && !RacedMessaged(s, k)
  {}

  lemma JudgedNothingKnown(r: Rules, s: State, k: Session, content: string)
    requires Sane(r) && TextsInv(s) && Known(r, s, k).None?
    ensures Judge(r, s, k, content).1 == Due(r, s, k, content)
  {
    RacedIsFresh(s, k);
    var t := s.(answers := ClearPending(s.answers, k));
    assert Looked(r, s, k) == t;
    assert RacedAsk(r, t, k) == RacedAsk(r, s, k);
  }

  lemma JudgedHeld(r: Rules, s: State, k: Session, content: string)
    requires Sane(r) && TextsInv(s) && HasPending(s, k)
    requires s.answers.pending[k].bySelf ==> s.answers.pending[k].answer != ""
    ensures Judge(r, s, k, content).1 == Due(r, s, k, content)
  {
    RacedIsFresh(s, k);
  }

  lemma JudgedRaced(r: Rules, s: State, k: Session, content: string)
    requires Sane(r) && TextsInv(s) && !HasPending(s, k) && CanAdopt(s, k)
    ensures Judge(r, s, k, content).1 == Due(r, s, k, content)
  {
    RacedIsFresh(s, k);
    var t := Adopt(r, s, k);
    assert Looked(r, s, k) == t && !CanAdopt(t, k) && HasPending(t, k) && !t.answers.pending[k].bySelf;
  }

  lemma JudgedExactly(r: Rules, s: State, k: Session, content: string)
    requires Sane(r) && TextsInv(s) && DeliveredSpoke(s)
    ensures Judge(r, s, k, content).1 == Due(r, s, k, content)
  {
    RacedIsFresh(s, k);
    if HasPending(s, k) { JudgedHeld(r, s, k, content); }
    else if CanAdopt(s, k) { JudgedRaced(r, s, k, content); }
    else { JudgedNothingKnown(r, s, k, content); }
  }

  /** An entry with a rescue due, under way or done holds a spoken answer. */
  ghost predicate SpokeInv(a: Answers) {
    forall k :: k in a.pending && (a.pending[k].timer.Some? || a.pending[k].bySelf || InFlight(a, k, a.pending[k].number)) ==>
      a.pending[k].answer != ""
  }

  lemma CaptureSpoke(a: Answers, now: int, k: Session, answer: string)
    requires AnswersInv(a) && SpokeInv(a)
    ensures SpokeInv(Remember(a, now, k, answer))
  {
    var b := Remember(a, now, k, answer);
    assert InFlight(a, k, a.count) ==> RescueInv(a, k, a.count);
    assert forall j, n :: InFlight(b, j, n) == InFlight(a, j, n);
  }

  lemma FewerSpoke(a: Answers, b: Answers)
    requires SpokeInv(a) && b.rescues == a.rescues
    requires forall k :: k in b.pending ==> k in a.pending && b.pending[k] == a.pending[k]
    ensures SpokeInv(b)
  {
    assert forall j, n :: InFlight(b, j, n) == InFlight(a, j, n);
  }

  lemma RescueSpoke(a: Answers, now: int, k: Session, account: bool)
    requires SpokeInv(a)
    ensures SpokeInv(RescueStarts(a, now, k, account))
  {
    var b := RescueStarts(a, now, k, account);
    assert forall j, n :: InFlight(b, j, n) ==> InFlight(a, j, n) || (j == k && n == a.pending[k].number);
  }

  lemma RescueEndSpoke(a: Answers, now: int, k: Session, number: nat, ok: bool)
    requires SpokeInv(a)
    ensures SpokeInv(RescueEnds(a, now, k, number, ok))
  {
    var b := RescueEnds(a, now, k, number, ok);
    assert forall j, n :: InFlight(b, j, n) ==> InFlight(a, j, n);
  }

  lemma SettleSpoke(r: Rules, s: State, k: Session, content: string)
    requires SpokeInv(s.answers) && k in s.answers.pending
    ensures SpokeInv(Settle(r, s, k, content).0.answers)
  {
    FewerSpoke(s.answers, ClearPending(s.answers, k));
    FewerSpoke(s.answers, HandOut(s.answers, k));
  }

  lemma JudgeSpoke(r: Rules, s: State, k: Session, content: string)
    requires AnswersInv(s.answers) && SpokeInv(s.answers)
    ensures SpokeInv(Judge(r, s, k, content).0.answers)
  {
    var t := Looked(r, s, k);
    LookedKeeps(r, s, k);
    FewerSpoke(s.answers, ClearPending(s.answers, k));
    if CanAdopt(s, k) { CaptureSpoke(s.answers, s.now, k, Answer(r, s.lastTexts[k].text)); }
    if k !in t.answers.pending {
      assert Refuse(r, t, k, content).0.answers == t.answers;
    } else {
      if CanAdopt(t, k) { CaptureSpoke(t.answers, t.now, k, Answer(r, t.lastTexts[k].text)); }
      SettleSpoke(r, LookedAgain(r, t, k), k, content);
    }
  }

  lemma EndSpoke(r: Rules, s: State, k: Session, run: RunId, trigger: bool)
    requires AnswersInv(s.answers) && SpokeInv(s.answers)
    ensures SpokeInv(OnAgentEnd(r, s, k, run, trigger).answers)
  {
    FewerSpoke(s.answers, ClearPending(s.answers, k));
    CaptureSpoke(s.answers, s.now, k, Answer(r, OwnText(s, k, run)));
  }

  lemma SpokeStep(r: Rules, s: State, e: Event)
    requires AnswersInv(s.answers) && SpokeInv(s.answers)
    ensures SpokeInv(Step(r, s, e).answers)
  {
    match e
    case Wait(_) =>
    case ToolCall(_, _, _) =>
    case LlmOutput(_, _, _) =>
    case AgentEnd(k, run, trigger) => EndSpoke(r, s, k, run, trigger);
    case Sending(k, content) =>
      JudgeSpoke(r, s.(tools := s.tools.(flags := s.tools.flags - {k})), k, content);
      JudgeSpoke(r, s, k, content);
    case RescueStart(k, account) => RescueSpoke(s.answers, s.now, k, account);
    case RescueEnd(k, number, ok) => RescueEndSpoke(s.answers, s.now, k, number, ok);
  }

  lemma {:induction false} SpokeRun(r: Rules, es: seq<Event>)
    ensures SpokeInv(Exec(r, es).answers)
  {
    if es != [] {
      SpokeRun(r, es[..|es| - 1]);
      EachAnswerOnce(r, es[..|es| - 1]);
      SpokeStep(r, Exec(r, es[..|es| - 1]), es[|es| - 1]);
    }
  }

  /** An own send was under way at most three seconds ago and no delivery has come since. */
  predicate OwnSend(es: seq<Event>, k: Session) {
    SendUnderWay(es, k).Some? && TimeOf(es) - SendUnderWay(es, k).value <= 3_000
  }

  lemma OwnSendIsExcused(r: Rules, es: seq<Event>, k: Session)
    ensures Excused(Exec(r, es), k) <==> OwnSend(es, k)
  {
    TraceTells(r, es);
  }

  lemma SendingIsJudged(r: Rules, s: State, k: Session, content: string)
    requires Sane(r) && TextsInv(s) && DeliveredSpoke(s)
    ensures OnSending(r, s, k, content).1 == if Excused(s, k) then Pass else Due(r, s, k, content)
  {
    var lowered := s.(tools := s.tools.(flags := s.tools.flags - {k}));
    JudgedExactly(r, s, k, content);
    JudgedExactly(r, lowered, k, content);
    assert Due(r, lowered, k, content) == Due(r, s, k, content);
  }

  /**
   Over any trace a delivery passes when it is the agent's own send. Any other one is cancelled exactly when it is
   text for which the rescue delivered the answer already or the answer is silence, or when no answer is known
   and it carries what a run wanted kept internal; it is rewritten exactly when it is text that differs from a
   spoken answer that is known.
   */
  lemma DeliveryDecides(r: Rules, es: seq<Event>, s: State, k: Session, content: string)
    requires Sane(r) && s == Exec(r, es)
    ensures var v, known, isText := OnSending(r, s, k, content).1, Known(r, s, k), r.trim(content) != "";
            && (v == Cancel <==>
                  && !OwnSend(es, k)
                  && if known.None? then Internal(r, s, k, content) else isText && (Delivered(s, k) || known == Some("")))
            && (forall text :: v == Rewrite(text) <==>
                  && !OwnSend(es, k) && known == Some(text) && text != "" && isText && !Delivered(s, k)
                  && r.trim(content) != r.trim(text))
  {
    assert TextsInv(s) && DeliveredSpoke(s) by {
      TextsRun(r, es);
      SpokeRun(r, es);
    }
    OwnSendIsExcused(r, es, k);
    SendingIsJudged(r, s, k, content);
  }

  // --- what a delivery uses up ------------------------------------------------------------------

  /** An own send uses up its flag and nothing else. */
  lemma OwnSendUsesItsFlag(r: Rules, s: State, k: Session, content: string)
    requires Excused(s, k)
    ensures OnSending(r, s, k, content).0 ==
            s.(tools := Tools(s.tools.flags - {k}, s.tools.raised, s.tools.excused + [s.tools.flags[k].number]))
  {}

  /** The number under which the answer that is known for a delivery was or is now captured. */
  function NumberOf(s: State, k: Session): nat {
    if k in s.answers.pending && s.now < s.answers.pending[k].expiresAt && s.answers.pending[k].answer != ""
    then s.answers.pending[k].number else s.answers.count
  }

  /**
   A known answer is used up by the first delivery of text that the rescue has not come before, and then it
   has reached the owner.
   */
  lemma JudgeUsesTheAnswer(r: Rules, s: State, k: Session, content: string)
    requires Sane(r) && TextsInv(s) && DeliveredSpoke(s) && Known(r, s, k).Some? && r.trim(content) != ""
    ensures var t := Judge(r, s, k, content).0;
            if Delivered(s, k) then t == s
            else
              && k !in t.answers.pending && t.answers.rescues == s.answers.rescues
              && t.answers.reached == s.answers.reached +
                   if Known(r, s, k) == Some("") then []
                   else [Reach(NumberOf(s, k), false, InFlight(s.answers, k, NumberOf(s, k)))]
  {
    RacedIsFresh(s, k);
    if !Delivered(s, k) {
      var t := Looked(r, s, k);
      var u := LookedAgain(r, t, k);
      assert u.answers.pending[k].answer == Known(r, s, k).value && u.answers.rescues == s.answers.rescues;
      assert u.answers.reached == s.answers.reached;
      assert Known(r, s, k) != Some("") ==> u.answers.pending[k].number == NumberOf(s, k);
      assert Judge(r, s, k, content) == Settle(r, u, k, content);
      assert InFlight(u.answers, k, NumberOf(s, k)) == InFlight(s.answers, k, NumberOf(s, k));
    }
  }

  /** A silence ask is used up by the delivery it cancels, with the text it may come from. */
  lemma JudgeUsesTheAsk(r: Rules, s: State, k: Session, content: string)
    requires Sane(r) && TextsInv(s) && Known(r, s, k).None?
    ensures var t := Judge(r, s, k, content).0;
            t == if Internal(r, s, k, content) && !r.silent(content)
                 then s.(answers := ClearPending(s.answers, k), silenced := s.silenced - {k}, lastTexts := s.lastTexts - {k})
                 else s.(answers := ClearPending(s.answers, k))
  {
    RacedIsFresh(s, k);
    assert Looked(r, s, k) == s.(answers := ClearPending(s.answers, k));
  }

  /** Media passes and leaves the answer for the text. */
  lemma MediaLeavesTheAnswer(r: Rules, s: State, k: Session, content: string)
    requires Sane(r) && TextsInv(s) && Known(r, s, k).Some? && r.trim(content) == ""
    ensures Judge(r, s, k, content).1 == Pass
    ensures Known(r, Judge(r, s, k, content).0, k) == Known(r, s, k)
  {
    RacedIsFresh(s, k);
  }

  // --- silence asks -----------------------------------------------------------------------------

  /** One event and then events of other sessions. */
  lemma ThenApart(r: Rules, es: seq<Event>, e: Event, more: seq<Event>, all: seq<Event>, k: Session)
    requires all == es + [e] + more && AllApart(more, k)
    ensures SameAt(Step(r, Exec(r, es), e), Exec(r, all), k)
  {
    var first := es + [e];
    assert first[..|es|] == es;
    ApartRun(r, first, more, k);
  }

  /**
   A completion run that had messaged the owner ended on silence with some prose beside it. Whatever other
   sessions do meanwhile, a delivery of the session that carries this prose within 15 s is cancelled.
   */
  lemma DroppedProseIsCancelled(r: Rules, es: seq<Event>, s: State, k: Session, run: RunId, trigger: bool,
                                more: seq<Event>, all: seq<Event>, u: State, content: string)
    requires Sane(r) && s == Exec(r, es) && Completes(run, trigger) && MessagedIn(es, run, k)
    requires r.silent(Own(s, k, run)) && Prose(r, Own(s, k, run)) == r.comparable(content) != ""
    requires all == es + [AgentEnd(k, run, trigger)] + more && AllApart(more, k) && u == Exec(r, all)
    requires TimeOf(all) < TimeOf(es) + 15_000 && !OwnSend(all, k)
    ensures OnSending(r, u, k, content).1 == Cancel
  {
    EndDecides(r, es, s, k, run, trigger);
    ThenApart(r, es, AgentEnd(k, run, trigger), more, all, k);
    assert u.now < s.now + 15_000 by {
      TraceTells(r, es);
      TraceTells(r, all);
    }
    assert Known(r, u, k).None? && Internal(r, u, k, content);
    DeliveryDecides(r, all, u, k, content);
  }

  /**
   The same when the delivery comes before the run's end: its silent text was just written, the run counts as
   having messaged the owner when the delivery comes, and no answer is held for the session.
   */
  lemma RacedProseIsCancelled(r: Rules, es: seq<Event>, s: State, k: Session, run: RunId, text: string,
                              more: seq<Event>, all: seq<Event>, u: State, content: string)
    requires Sane(r) && s == Exec(r, es) && IsAnnounce(run) && !HasPending(s, k)
    requires text != "" && r.silent(text) && Prose(r, text) == r.comparable(content) != ""
    requires all == es + [LlmOutput(k, run, text)] + more && AllApart(more, k) && u == Exec(r, all)
    requires TimeOf(all) <= TimeOf(es) + 10_000 && !OwnSend(all, k) && MessagedIn(all, run, k)
    ensures OnSending(r, u, k, content).1 == Cancel
  {
    ThenApart(r, es, LlmOutput(k, run, text), more, all, k);
    assert u.now <= s.now + 10_000 by {
      TraceTells(r, es);
      TraceTells(r, all);
    }
    assert HasMessaged(u.marks, u.now, run, k) by { MessagedExactly(r, all, run, k); }
    RacedIsInternal(r, s, k, run, text, u, content);
    DeliveryDecides(r, all, u, k, content);
  }

  lemma RacedIsInternal(r: Rules, s: State, k: Session, run: RunId, text: string, u: State, content: string)
    requires IsAnnounce(run) && !HasPending(s, k) && text != "" && r.silent(text)
    requires Prose(r, text) == r.comparable(content) != ""
    requires SameAt(OnLlmOutput(s, k, run, text), u, k) && u.now <= s.now + 10_000 && HasMessaged(u.marks, u.now, run, k)
    ensures Known(r, u, k).None? && Internal(r, u, k, content)
  {
    assert u.lastTexts[k] == Captured(text, run, true, s.now, s.now + 900_000);
    assert RacedMessaged(u, k);
  }

  // --- the rescue -------------------------------------------------------------------------------

  /** The rescue posts exactly what is pending, due, not expired and has an account to go to; due without that, it is given up. */
  lemma RescueFiresExactly(a: Answers, now: int, k: Session, account: bool)
    requires AnswersInv(a)
    ensures var b := RescueStarts(a, now, k, account);
            var due := k in a.pending && a.pending[k].timer.Some? && a.pending[k].timer.value <= now;
            && ((exists n :: InFlight(b, k, n) && !InFlight(a, k, n)) <==> due && account && now < a.pending[k].expiresAt)
            && (due && account && now < a.pending[k].expiresAt ==>
                  k in b.pending && b.pending[k] == a.pending[k].(timer := None) && InFlight(b, k, a.pending[k].number))
            && (due && !(account && now < a.pending[k].expiresAt) ==> b == ClearPending(a, k))
            && (!due ==> b == a)
  {
    if k in a.pending {
      assert PendingInv(a, k);
      var b, n := RescueStarts(a, now, k, account), a.pending[k].number;
      assert a.pending[k].timer.Some? ==> !InFlight(a, k, n);
    }
  }
}
