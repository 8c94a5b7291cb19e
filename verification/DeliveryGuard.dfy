/**
 The maps of `completion-delivery.ts` with the hook handlers that update them in place, proved to take the
 steps of `CompletionGuard`.
 */
module DeliveryGuard {
  import opened Common
  import opened CompletionGuard
  import opened CompletionGuardRuns

  class Guard {
    var now: int
    var messagedRuns: map<RunId, Mark>
    var messagedSessions: map<Session, Mark>
    var toolSendsInFlight: map<Session, Flag>
    var pendingAnswers: map<Session, Pending>
    var rescues: map<Session, set<nat>>
    var lastVisibleTexts: map<Session, Captured>
    var silencedTexts: map<Session, Silenced>
    // history
    var sends: seq<Sent>
    var raised: nat
    var excused: seq<nat>
    var count: nat
    var reached: seq<Reach>

    constructor ()
      ensures Abs() == START
    {
      now, messagedRuns, messagedSessions, toolSendsInFlight := 0, map[], map[], map[];
      pendingAnswers, rescues, lastVisibleTexts, silencedTexts := map[], map[], map[], map[];
      sends, raised, excused, count, reached := [], 0, [], 0, [];
    }

    ghost function Abs(): State
      reads this
    {
      State(now, Marks(messagedRuns, messagedSessions, sends), Tools(toolSendsInFlight, raised, excused),
            Answers(pendingAnswers, rescues, count, reached), lastVisibleTexts, silencedTexts)
    }

    predicate HasMessagedOwner(run: RunId, k: Session)
      reads this
      ensures HasMessagedOwner(run, k) == HasMessaged(Abs().marks, now, run, k)
    {
      || (run.Run? && run in messagedRuns && now < messagedRuns[run].expiresAt)
      || (k in messagedSessions && now < messagedSessions[k].expiresAt
          && (run.Unknown? || messagedSessions[k].run.Unknown? || messagedSessions[k].run == run))
    }

    /** `readLastVisible` */
    function ReadLastVisible(k: Session): (r: Option<Captured>)
      reads this
      ensures r.Some? == HasText(Abs(), k) && (r.Some? ==> r.value == lastVisibleTexts[k])
    {
      if k in lastVisibleTexts && now < lastVisibleTexts[k].expiresAt then Some(lastVisibleTexts[k]) else None
    }

    // --- pending answers ------------------------------------------------------------------------

    method ClearPendingAnswer(k: Session)
      modifies `pendingAnswers
      ensures Abs() == old(Abs()).(answers := ClearPending(old(Abs()).answers, k))
    {
      pendingAnswers := pendingAnswers - {k};
    }

    method RememberAnswer(k: Session, answer: string)
      modifies `pendingAnswers, `count
      ensures Abs() == old(Abs()).(answers := Remember(old(Abs()).answers, now, k, answer))
    {
      var ttl, timer := EMPTY_PENDING_TTL, None;
      if answer != "" { ttl, timer := PENDING_TTL, Some(now + SELF_DELIVER_AFTER); }
      pendingAnswers := pendingAnswers[k := Pending(count, answer, now + ttl, false, timer)];
      count := count + 1;
    }

    /** The timer of an answer fires: `selfDeliver` up to its post. */
    method SelfDeliver(k: Session, account: bool)
      modifies `pendingAnswers, `rescues
      ensures Abs() == old(Abs()).(answers := RescueStarts(old(Abs()).answers, now, k, account))
    {
      if k !in pendingAnswers || pendingAnswers[k].timer.None? || pendingAnswers[k].timer.value > now { return; }
      var pending := pendingAnswers[k];
      if pending.expiresAt <= now || !account {
        ClearPendingAnswer(k);
        return;
      }
      pendingAnswers := pendingAnswers[k := pending.(timer := None)];
      rescues := rescues[k := (if k in rescues then rescues[k] else {}) + {pending.number}];
    }

    method SelfDeliverEnded(k: Session, number: nat, ok: bool)
      modifies this
      ensures Abs() == old(Abs()).(answers := RescueEnds(old(Abs()).answers, old(now), k, number, ok))
    {
      if !(k in rescues && number in rescues[k]) { return; }
      rescues := rescues[k := rescues[k] - {number}];
      if !ok {
        ClearPendingAnswer(k);
        return;
      }
      var held := k in pendingAnswers && pendingAnswers[k].number == number;
      reached := reached + [Reach(number, true, !held)];
      if held {
        pendingAnswers := pendingAnswers[k := pendingAnswers[k].(bySelf := true, timer := None, expiresAt := now + SUPPRESS_AFTER_SELF)];
      }
    }

    // --- hooks ----------------------------------------------------------------------------------

    method BeforeToolCall(k: Session, run: RunId, target: Session)
      modifies this
      ensures Abs() == OnToolCall(old(Abs()), k, run, target)
    {
      var marker := Mark(now + MESSAGED_TTL, run);
      if run.Run? { messagedRuns := messagedRuns[run := marker]; }
      messagedSessions := messagedSessions[k := marker];
      sends := sends + [Sent(now, run, k)];
      toolSendsInFlight := toolSendsInFlight[target := Flag(raised, now)];
      raised := raised + 1;
    }

    method LlmOutput(k: Session, run: RunId, text: string)
      modifies `lastVisibleTexts
      ensures Abs() == OnLlmOutput(old(Abs()), k, run, text)
    {
      if text == "" { return; }
      lastVisibleTexts := lastVisibleTexts[k := Captured(text, run, IsAnnounce(run), now, now + LAST_TEXT_TTL)];
    }

    method AgentEnd(r: Rules, k: Session, run: RunId, trigger: bool)
      modifies this
      ensures Abs() == OnAgentEnd(r, old(Abs()), k, run, trigger)
    {
      var seen, answer := ReadLastVisible(k), "";
      if seen.Some? && (run.Unknown? || seen.value.run.Unknown? || seen.value.run == run) { answer := seen.value.text; }
      lastVisibleTexts := lastVisibleTexts - {k};
      if !IsAnnounce(run) && !trigger { return; }
      if HasMessagedOwner(run, k) {
        ClearPendingAnswer(k);
        if r.silent(answer) {
          var prose := r.comparable(r.dropped(answer));
          if prose != "" { silencedTexts := silencedTexts[k := Silenced(prose, now + SILENCED_TTL)]; }
        }
        return;
      }
      RememberAnswer(k, if r.silent(answer) then "" else r.visible(answer));
    }

    method AdoptRacedCompletionAnswer(r: Rules, k: Session) returns (adopted: bool)
      modifies `lastVisibleTexts, `pendingAnswers, `count
      ensures adopted == CanAdopt(old(Abs()), k)
      ensures Abs() == if CanAdopt(old(Abs()), k) then Adopt(r, old(Abs()), k) else old(Abs())
    {
      var seen := ReadLastVisible(k);
      if seen.None? || !seen.value.completion || seen.value.text == "" { return false; }
      if now - seen.value.capturedAt > RACED_MAX_AGE || HasMessagedOwner(seen.value.run, k) { return false; }
      lastVisibleTexts := lastVisibleTexts - {k};
      RememberAnswer(k, if r.silent(seen.value.text) then "" else r.visible(seen.value.text));
      return true;
    }

    method RefuseSilencedDelivery(r: Rules, k: Session, content: string) returns (verdict: Verdict)
      modifies `silencedTexts, `lastVisibleTexts
      ensures (Abs(), verdict) == Refuse(r, old(Abs()), k, content)
    {
      var text := r.comparable(content);
      if text == "" { return Pass; }
      if r.silent(content) { return Cancel; }
      var recorded, asked := "", RacedSilenceAsk(r, k);
      if k in silencedTexts && now < silencedTexts[k].expiresAt { recorded := silencedTexts[k].text; }
      if recorded != text && asked != text { return Pass; }
      silencedTexts, lastVisibleTexts := silencedTexts - {k}, lastVisibleTexts - {k};
      return Cancel;
    }

    function RacedSilenceAsk(r: Rules, k: Session): (ask: string)
      reads this
      ensures ask == RacedAsk(r, Abs(), k)
    {
      var seen := ReadLastVisible(k);
      if seen.None? || !seen.value.completion || seen.value.text == "" || now - seen.value.capturedAt > RACED_MAX_AGE then ""
      else if !HasMessagedOwner(seen.value.run, k) || !r.silent(seen.value.text) then ""
      else r.comparable(r.dropped(seen.value.text))
    }

    /** `message_sending` after the check for the agent's own tool send. */
    method JudgeDelivery(r: Rules, k: Session, content: string) returns (verdict: Verdict)
      modifies this
      ensures (Abs(), verdict) == Judge(r, old(Abs()), k, content)
    {
      // readPending, else adopt
      if !(k in pendingAnswers && now < pendingAnswers[k].expiresAt) {
        var adopted := AdoptRacedCompletionAnswer(r, k);
        if !adopted {
          ClearPendingAnswer(k);
          verdict := RefuseSilencedDelivery(r, k, content);
          return;
        }
      }
      if r.trim(content) == "" { return Pass; }
      if pendingAnswers[k].bySelf { return Cancel; }
      if pendingAnswers[k].answer == "" { var again := AdoptRacedCompletionAnswer(r, k); }
      verdict := SettleDelivery(r, k, content);
    }

    method SettleDelivery(r: Rules, k: Session, content: string) returns (verdict: Verdict)
      requires k in pendingAnswers
      modifies `pendingAnswers, `reached
      ensures (Abs(), verdict) == Settle(r, old(Abs()), k, content)
    {
      var answer, number := pendingAnswers[k].answer, pendingAnswers[k].number;
      ClearPendingAnswer(k);
      if answer == "" { return Cancel; }
      reached := reached + [Reach(number, false, k in rescues && number in rescues[k])];
      verdict := if r.trim(content) == r.trim(answer) then Pass else Rewrite(answer);
    }

    method MessageSending(r: Rules, k: Session, content: string) returns (verdict: Verdict)
      modifies this
      ensures (Abs(), verdict) == OnSending(r, old(Abs()), k, content)
    {
      if k in toolSendsInFlight {
        var flag := toolSendsInFlight[k];
        toolSendsInFlight := toolSendsInFlight - {k};
        if now - flag.markedAt <= TOOL_SEND_GRACE {
          excused := excused + [flag.number];
          return Pass;
        }
      }
      verdict := JudgeDelivery(r, k, content);
    }

    method Take(r: Rules, e: Event)
      modifies this
      ensures Abs() == Step(r, old(Abs()), e)
    {
      match e
      case Wait(time) => now := now + time;
      case ToolCall(k, run, target) => BeforeToolCall(k, run, target);
      case LlmOutput(k, run, text) => LlmOutput(k, run, text);
      case AgentEnd(k, run, trigger) => AgentEnd(r, k, run, trigger);
      case Sending(k, content) => var verdict := MessageSending(r, k, content);
      case RescueStart(k, account) => SelfDeliver(k, account);
      case RescueEnd(k, number, ok) => SelfDeliverEnded(k, number, ok);
    }
  }

  /** A fresh guard driven by any trace excuses one delivery a flag and hands out each answer once, but for rescues. */
  method Drive(r: Rules, es: seq<Event>) returns (g: Guard)
    ensures fresh(g) && g.Abs() == Exec(r, es)
    ensures Distinct(g.excused) && OnceEach(g.reached)
  {
    g := Run(r, es);
    ToolsRun(r, es);
    EachAnswerOnce(r, es);
  }

  method Run(r: Rules, es: seq<Event>) returns (g: Guard)
    ensures fresh(g) && g.Abs() == Exec(r, es)
  {
    g := new Guard();
    var i := 0;
    while i < |es|
      invariant 0 <= i <= |es| && g.Abs() == Exec(r, es[..i])
    {
      g.Take(r, es[i]);
      assert es[..i + 1][..i] == es[..i];
      i := i + 1;
    }
    assert es[..i] == es;
  }
}
