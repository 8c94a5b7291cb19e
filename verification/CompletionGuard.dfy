/**
 The completion-delivery guard of `completion-delivery.ts`: hooks that may arrive in several orders
 decide what becomes of a delivery the runtime makes on its own.

 Each hook handler is one step. The rescue send is two steps, as its post is awaited. What counts as
 a silent answer and how text is compared is given by `Rules`. Markers past their time are ignored
 rather than swept, and the clock does not go back.
 */
module CompletionGuard {
  import opened Common

  const PENDING_TTL: int := 60_000
  const EMPTY_PENDING_TTL: int := 15_000
  const SELF_DELIVER_AFTER: int := 5_000
  const SUPPRESS_AFTER_SELF: int := 30_000
  const MESSAGED_TTL: int := 600_000
  const LAST_TEXT_TTL: int := 900_000
  const RACED_MAX_AGE: int := 10_000
  const TOOL_SEND_GRACE: int := 3_000
  const SILENCED_TTL: int := 15_000

  type Session = nat

  datatype RunId = Unknown | Run(number: nat, announce: bool)

  predicate IsAnnounce(run: RunId) { run.Run? && run.announce }

  /** The text functions of `silent-token.ts`, and the two ways text is normalised. */
  datatype Rules = Rules(silent: string -> bool, visible: string -> string, dropped: string -> string,
                         comparable: string -> string, trim: string -> string)

  /** All that is known about them: nothing is silent, and a spoken answer has visible text. */
  ghost predicate Sane(r: Rules) {
    r.silent("") && (forall text :: !r.silent(text) ==> r.visible(text) != "")
  }

  /** `number` is history: which captured answer this is. `timer` is the time the rescue is due. */
  datatype Pending = Pending(number: nat, answer: string, expiresAt: int, bySelf: bool, timer: Option<int>)
  datatype Mark = Mark(expiresAt: int, run: RunId)
  datatype Captured = Captured(text: string, run: RunId, completion: bool, capturedAt: int, expiresAt: int)
  datatype Flag = Flag(number: nat, markedAt: int)
  datatype Silenced = Silenced(text: string, expiresAt: int)

  /** History: a send the agent made itself. */
  datatype Sent = Sent(at: int, run: RunId, session: Session)

  /** History: a captured answer reached the owner; `inFlight` while its rescue post was under way. */
  datatype Reach = Reach(number: nat, byRescue: bool, inFlight: bool)

  /** Who messaged the owner lately; `sends` is history. */
  datatype Marks = Marks(byRun: map<RunId, Mark>, bySession: map<Session, Mark>, sends: seq<Sent>)

  /** Tool sends on their way; `raised` counts them and `excused` are the deliveries they let through, both history. */
  datatype Tools = Tools(flags: map<Session, Flag>, raised: nat, excused: seq<nat>)

  /** Captured answers and rescue posts under way; `count` and `reached` are history. */
  datatype Answers = Answers(pending: map<Session, Pending>, rescues: map<Session, set<nat>>, count: nat, reached: seq<Reach>)

  datatype State = State(now: int, marks: Marks, tools: Tools, answers: Answers,
                         lastTexts: map<Session, Captured>, silenced: map<Session, Silenced>)

  datatype Verdict = Pass | Rewrite(text: string) | Cancel

  datatype Event =
    | Wait(time: nat)
    | ToolCall(session: Session, run: RunId, target: Session)
    | LlmOutput(session: Session, run: RunId, text: string)
    | AgentEnd(session: Session, run: RunId, trigger: bool)
    | Sending(session: Session, content: string)
    | RescueStart(session: Session, account: bool)
    | RescueEnd(session: Session, number: nat, ok: bool)

  const START: State :=
    State(0, Marks(map[], map[], []), Tools(map[], 0, []), Answers(map[], map[], 0, []), map[], map[])

  // --- reading ----------------------------------------------------------------------------------

  predicate HasPending(s: State, k: Session) { k in s.answers.pending && s.now < s.answers.pending[k].expiresAt }

  predicate HasText(s: State, k: Session) { k in s.lastTexts && s.now < s.lastTexts[k].expiresAt }

  /** `hasMessagedOwner` */
  predicate HasMessaged(m: Marks, now: int, run: RunId, k: Session) {
    || (run.Run? && run in m.byRun && now < m.byRun[run].expiresAt)
    || (k in m.bySession && now < m.bySession[k].expiresAt
        && (run.Unknown? || m.bySession[k].run.Unknown? || m.bySession[k].run == run))
  }

  // --- captured answers -------------------------------------------------------------------------

  function ClearPending(a: Answers, k: Session): Answers { a.(pending := a.pending - {k}) }

  /** `rememberAnswer` */
  function Remember(a: Answers, now: int, k: Session, answer: string): Answers {
    var ttl := if answer != "" then PENDING_TTL else EMPTY_PENDING_TTL;
    var timer := if answer != "" then Some(now + SELF_DELIVER_AFTER) else None;
    a.(pending := a.pending[k := Pending(a.count, answer, now + ttl, false, timer)], count := a.count + 1)
  }

  predicate InFlight(a: Answers, k: Session, number: nat) { k in a.rescues && number in a.rescues[k] }

  /** The answer goes out with a delivery and waits no longer. */
  function HandOut(a: Answers, k: Session): Answers
    requires k in a.pending
  {
    var n := a.pending[k].number;
    ClearPending(a, k).(reached := a.reached + [Reach(n, false, InFlight(a, k, n))])
  }

  /** The rescue timer fires: `selfDeliver` up to its post. */
  function RescueStarts(a: Answers, now: int, k: Session, account: bool): Answers {
    if k in a.pending && a.pending[k].timer.Some? && a.pending[k].timer.value <= now then
      var p := a.pending[k];
      if p.expiresAt <= now || !account then ClearPending(a, k)
      else
        var open := if k in a.rescues then a.rescues[k] else {};
        a.(pending := a.pending[k := p.(timer := None)], rescues := a.rescues[k := open + {p.number}])
    else a
  }

  /** The post ended. The entry that was captured is marked; a failure clears whatever is pending. */
  function RescueEnds(a: Answers, now: int, k: Session, number: nat, ok: bool): Answers {
    if !InFlight(a, k, number) then a
    else
      var b := a.(rescues := a.rescues[k := a.rescues[k] - {number}]);
      if !ok then ClearPending(b, k)
      else
        var held := k in a.pending && a.pending[k].number == number;
        var c := b.(reached := a.reached + [Reach(number, true, !held)]);
        if held then
          c.(pending := a.pending[k := a.pending[k].(bySelf := true, timer := None, expiresAt := now + SUPPRESS_AFTER_SELF)])
        else c
  }

  // --- hooks ------------------------------------------------------------------------------------

  /** `before_tool_call` for a messaging tool that sends. */
  function OnToolCall(s: State, k: Session, run: RunId, target: Session): State {
    var mark := Mark(s.now + MESSAGED_TTL, run);
    s.(marks := Marks(if run.Run? then s.marks.byRun[run := mark] else s.marks.byRun, s.marks.bySession[k := mark],
                      s.marks.sends + [Sent(s.now, run, k)]),
       tools := s.tools.(flags := s.tools.flags[target := Flag(s.tools.raised, s.now)], raised := s.tools.raised + 1))
  }

  /** `llm_output` with visible text. */
  function OnLlmOutput(s: State, k: Session, run: RunId, text: string): State {
    if text == "" then s
    else s.(lastTexts := s.lastTexts[k := Captured(text, run, IsAnnounce(run), s.now, s.now + LAST_TEXT_TTL)])
  }

  /** What the ending run may claim as its answer: its own text, as far as ids can tell. */
  function OwnText(s: State, k: Session, run: RunId): string {
    if HasText(s, k) && (run.Unknown? || s.lastTexts[k].run.Unknown? || s.lastTexts[k].run == run)
    then s.lastTexts[k].text else ""
  }

  /** `agent_end`; `trigger` is the wording that marks a completion run without an announce id. */
  function OnAgentEnd(r: Rules, s: State, k: Session, run: RunId, trigger: bool): State {
    var answer := OwnText(s, k, run);
    var t := s.(lastTexts := s.lastTexts - {k});
    if !IsAnnounce(run) && !trigger then t
    else if HasMessaged(s.marks, s.now, run, k) then
      var prose := r.comparable(r.dropped(answer));
      t.(answers := ClearPending(s.answers, k),
         silenced := if r.silent(answer) && prose != "" then s.silenced[k := Silenced(prose, s.now + SILENCED_TTL)]
                     else s.silenced)
    else t.(answers := Remember(s.answers, s.now, k, if r.silent(answer) then "" else r.visible(answer)))
  }

  /** The captured text of a completion run, fresh enough to belong to a delivery made now. */
  predicate HasRaced(s: State, k: Session) {
    HasText(s, k) && s.lastTexts[k].completion && s.lastTexts[k].text != "" && s.now - s.lastTexts[k].capturedAt <= RACED_MAX_AGE
  }

  predicate CanAdopt(s: State, k: Session) { HasRaced(s, k) && !HasMessaged(s.marks, s.now, s.lastTexts[k].run, k) }

  /** `adoptRacedCompletionAnswer` */
  function Adopt(r: Rules, s: State, k: Session): State
    requires CanAdopt(s, k)
  {
    var text := s.lastTexts[k].text;
    s.(lastTexts := s.lastTexts - {k},
       answers := Remember(s.answers, s.now, k, if r.silent(text) then "" else r.visible(text)))
  }

  /** `racedSilenceAsk` */
  function RacedAsk(r: Rules, s: State, k: Session): string {
    if HasRaced(s, k) && HasMessaged(s.marks, s.now, s.lastTexts[k].run, k) && r.silent(s.lastTexts[k].text)
    then r.comparable(r.dropped(s.lastTexts[k].text)) else ""
  }

  /** `refuseSilencedDelivery` */
  function Refuse(r: Rules, s: State, k: Session, content: string): (State, Verdict) {
    var text := r.comparable(content);
    if text == "" then (s, Pass)
    else if r.silent(content) then (s, Cancel)
    else
      var recorded := if k in s.silenced && s.now < s.silenced[k].expiresAt then s.silenced[k].text else "";
      if recorded != text && RacedAsk(r, s, k) != text then (s, Pass)
      else (s.(silenced := s.silenced - {k}, lastTexts := s.lastTexts - {k}), Cancel)
  }

  /** The decision once an answer is pending: consume it and correct the delivery. */
  function Settle(r: Rules, s: State, k: Session, content: string): (State, Verdict)
    requires k in s.answers.pending
  {
    var answer := s.answers.pending[k].answer;
    if answer == "" then (s.(answers := ClearPending(s.answers, k)), Cancel)
    else (s.(answers := HandOut(s.answers, k)), if r.trim(content) == r.trim(answer) then Pass else Rewrite(answer))
  }

  /** The pending answer of the session, expired ones dropped, raced ones adopted. */
  function Looked(r: Rules, s: State, k: Session): State {
    if HasPending(s, k) then s
    else if CanAdopt(s, k) then Adopt(r, s, k)
    else s.(answers := ClearPending(s.answers, k))
  }

  /** An empty answer is looked up once more, as the run's last text may have landed since. */
  function LookedAgain(r: Rules, s: State, k: Session): State
    requires k in s.answers.pending
  {
    if s.answers.pending[k].answer == "" && CanAdopt(s, k) then Adopt(r, s, k) else s
  }

  /** The handler after the tool-send check. */
  function Judge(r: Rules, s: State, k: Session, content: string): (State, Verdict) {
    var t := Looked(r, s, k);
    if k !in t.answers.pending then Refuse(r, t, k, content)
    else if r.trim(content) == "" then (t, Pass)
    else if t.answers.pending[k].bySelf then (t, Cancel)
    else Settle(r, LookedAgain(r, t, k), k, content)
  }

  /** `message_sending` */
  function OnSending(r: Rules, s: State, k: Session, content: string): (State, Verdict) {
    if k in s.tools.flags then
      var flag, lowered := s.tools.flags[k], s.tools.(flags := s.tools.flags - {k});
      if s.now - flag.markedAt <= TOOL_SEND_GRACE then
        (s.(tools := lowered.(excused := s.tools.excused + [flag.number])), Pass)
      else Judge(r, s.(tools := lowered), k, content)
    else Judge(r, s, k, content)
  }

  function Step(r: Rules, s: State, e: Event): State {
    match e
    case Wait(time) => s.(now := s.now + time)
    case ToolCall(k, run, target) => OnToolCall(s, k, run, target)
    case LlmOutput(k, run, text) => OnLlmOutput(s, k, run, text)
    case AgentEnd(k, run, trigger) => OnAgentEnd(r, s, k, run, trigger)
    case Sending(k, content) => OnSending(r, s, k, content).0
    case RescueStart(k, account) => s.(answers := RescueStarts(s.answers, s.now, k, account))
    case RescueEnd(k, number, ok) => s.(answers := RescueEnds(s.answers, s.now, k, number, ok))
  }

  function Exec(r: Rules, es: seq<Event>): State {
    if es == [] then START else Step(r, Exec(r, es[..|es| - 1]), es[|es| - 1])
  }
}
