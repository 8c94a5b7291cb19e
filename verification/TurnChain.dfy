/**
 The life of the turns that answer one owner message: `startInboundTurn` of `inbound.ts` with the shared
 records of `run-outcome.ts`.

 A turn is dispatched (again, if the runtime refused to admit it), judged, finished, and possibly followed
 up by a continuation or a re-ask, which is a turn of the same kind. What the engine, the owner and the
 other turns of the chat do meanwhile is a `Turn` value, which may be anything.
 */
module TurnChain {
  import opened Common

  const MAX_CONTINUATIONS: nat := 2
  const CONTINUATION_TTL: int := 1_800_000
  const OWNER_ABORT_TTL: int := 60_000
  const RUN_OUTCOME_TTL: int := 60_000
  const MAX_ADMISSION_REDISPATCHES: nat := 2

  type Key = nat

  // --- the records of one session ---------------------------------------------------------------

  datatype Outcome = Outcome(success: bool, hasError: bool)
  datatype Stored = Stored(outcome: Outcome, expiresAt: int)
  datatype Counter = Counter(count: nat, expiresAt: int)
  datatype Session = Session(outcome: Option<Stored>, stop: Option<int>, counter: Option<Counter>)

  function OutcomeRead(s: Session, now: int): Option<Outcome> {
    if s.outcome.Some? && now < s.outcome.value.expiresAt then Some(s.outcome.value.outcome) else None
  }

  predicate StopMarked(s: Session, now: int) { s.stop.Some? && now < s.stop.value }

  /** Attempts already spent, as far as they have not lapsed. */
  function Spent(s: Session, now: int): nat {
    if s.counter.Some? && now < s.counter.value.expiresAt then s.counter.value.count else 0
  }

  function Claimed(s: Session, now: int): (Session, Option<nat>) {
    if Spent(s, now) >= MAX_CONTINUATIONS then (s, None)
    else
      var next := Spent(s, now) + 1;
      (s.(counter := Some(Counter(next, now + CONTINUATION_TTL))), Some(next))
  }

  // --- one turn ---------------------------------------------------------------------------------

  /** One dispatch: whether it settled, else whether its error names an admission race. */
  datatype Try = Try(ok: bool, race: bool, delivered: bool, started: bool)

  /** What a turn knows when it is judged. */
  datatype Seen = Seen(now: int, aborted: bool, errorFinal: bool, answered: bool, steer: bool, transport: bool, human: bool)

  /**
   `outside` is what others did to the session's records during the turn, `stopped` a stop by the time the
   follow-up is due (a stop seen earlier still stands), `startFails` that the follow-up could not start.
   */
  datatype Turn = Turn(tries: nat -> Try, outside: Session -> Session, seen: Seen, stopped: bool, startFails: bool)

  datatype Dispatched = Dispatched(ok: bool, count: nat, started: bool)

  /** `dispatchWithAdmissionRetries`, from attempt `n` on, nothing having reached the chat before. */
  function Dispatch(tries: nat -> Try, n: nat): Dispatched
    requires n <= MAX_ADMISSION_REDISPATCHES
    decreases MAX_ADMISSION_REDISPATCHES - n
  {
    var t := tries(n);
    if !t.ok && n < MAX_ADMISSION_REDISPATCHES && t.race && !t.delivered && !t.started then Dispatch(tries, n + 1)
    else Dispatched(t.ok, n + 1, t.started)
  }

  datatype Status = Completed | Failed
  datatype Verdict = Close(status: Status) | AskAgain | Resume(attempt: nat)

  /** `askAgain` */
  function Asked(reasked: bool, silenceChosen: bool): Verdict {
    if !reasked then AskAgain else Close(if silenceChosen then Completed else Failed)
  }

  function Recovered(s: Session, now: int): (Session, Verdict) {
    var (t, attempt) := Claimed(s, now);
    (t, if attempt.None? then Close(Failed) else Resume(attempt.value))
  }

  /** `recoverIfTransport` */
  function RecoveredIfTransport(s: Session, seen: Seen, reasked: bool, endedOnItsOwn: bool, silenceChosen: bool): (Session, Verdict) {
    if seen.transport then Recovered(s, seen.now)
    else if endedOnItsOwn && !seen.answered && !seen.human then (s, Asked(reasked, silenceChosen))
    else (s, Close(Failed))
  }

  /** `resolveTurnEnd` once the owner's stop has been ruled out. */
  function Judged(s: Session, seen: Seen, reasked: bool): (Session, Verdict) {
    if !seen.errorFinal then
      if seen.answered then (s.(counter := None), Close(Completed))
      else (s, if seen.steer then Close(Completed) else Asked(reasked, true))
    else
      var outcome, t := OutcomeRead(s, seen.now), s.(outcome := None);
      if outcome.None? then RecoveredIfTransport(t, seen, reasked, true, false)
      else if outcome.value.success then
        if seen.answered then (t.(counter := None), Close(Completed))
        else RecoveredIfTransport(t, seen, reasked, true, true)
      else if outcome.value.hasError then RecoveredIfTransport(t, seen, reasked, false, false)
      else Recovered(t, seen.now)
  }

  /** How the turn ends: `resolveTurnEnd`, or the forced end of a dispatch that failed. */
  function Resolved(s: Session, seen: Seen, reasked: bool, dispatched: bool): (Session, Verdict) {
    var stop, t := StopMarked(s, seen.now) || seen.aborted, s.(stop := None);
    if !dispatched then (t, Close(if stop then Completed else Failed))
    else if stop then (t.(counter := None), Close(Completed))
    else Judged(t, seen, reasked)
  }

  // --- the chain --------------------------------------------------------------------------------

  /** `slot`: the turn holds the owner message's in-flight slot. `next` is the first unused message id. */
  datatype Params = Params(reasked: bool, message: nat, slot: bool, next: nat)

  datatype End = End(message: nat, status: Status)

  /** `used` turns ran; `over` unless the given ones ran out; `dispatches` per turn. */
  datatype Trace = Trace(used: nat, over: bool, ends: seq<End>, freed: nat, dispatches: seq<nat>, session: Session)

  predicate HeldOpen(t: Turn, s: Session, p: Params) {
    var d := Dispatch(t.tries, 0);
    d.ok && !d.started && Resolved(t.outside(s), t.seen, p.reasked, d.ok).1.AskAgain?
  }

  predicate StoppedBefore(t: Turn) { t.seen.aborted || t.stopped }

  function StatusOf(v: Verdict): Status { if v.Close? then v.status else Completed }

  function FollowUp(p: Params, v: Verdict, held: bool): Params {
    Params(p.reasked || v.AskAgain?, if held then p.message else p.next, held && p.slot,
           if held then p.next else p.next + 1)
  }

  function Chain(turns: seq<Turn>, s: Session, p: Params): Trace {
    if turns == [] then Trace(0, false, [], 0, [], s)
    else
      var t := turns[0];
      var d := Dispatch(t.tries, 0);
      var (s1, v) := Resolved(t.outside(s), t.seen, p.reasked, d.ok);
      var held := HeldOpen(t, s, p);
      var ends := if held then [] else [End(p.message, StatusOf(v))];
      var freed := if p.slot && !held then 1 else 0;
      if v.Close? || StoppedBefore(t) then Trace(1, true, ends, freed, [d.count], s1)
      else if t.startFails then Trace(1, true, ends, if p.slot then 1 else 0, [d.count], s1)
      else
        var rest := Chain(turns[1..], s1, FollowUp(p, v, held));
        Trace(1 + rest.used, rest.over, ends + rest.ends, freed + rest.freed, [d.count] + rest.dispatches, rest.session)
  }

  function First(slot: bool): Params { Params(false, 0, slot, 1) }

  // --- the source's own form --------------------------------------------------------------------

  /** The process-wide maps of `run-outcome.ts`. */
  class RunOutcomes {
    var outcomes: map<Key, Stored>
    var ownerAborts: map<Key, int>
    var continuations: map<Key, Counter>

    constructor ()
      ensures forall k :: Of(k) == Session(None, None, None)
    {
      outcomes, ownerAborts, continuations := map[], map[], map[];
    }

    function Of(k: Key): Session
      reads this
    {
      Session(if k in outcomes then Some(outcomes[k]) else None, if k in ownerAborts then Some(ownerAborts[k]) else None,
              if k in continuations then Some(continuations[k]) else None)
    }

    twostate predicate OthersKept(k: Key)
      reads this
    {
      forall j :: j != k ==> Of(j) == old(Of(j))
    }

    method RecordOutcome(k: Key, outcome: Outcome, now: int)
      modifies this
      ensures Of(k) == old(Of(k)).(outcome := Some(Stored(outcome, now + RUN_OUTCOME_TTL))) && OthersKept(k)
    {
      outcomes := outcomes[k := Stored(outcome, now + RUN_OUTCOME_TTL)];
    }

    method MarkOwnerAbort(k: Key, now: int)
      modifies this
      ensures Of(k) == old(Of(k)).(stop := Some(now + OWNER_ABORT_TTL)) && OthersKept(k)
    {
      ownerAborts := ownerAborts[k := now + OWNER_ABORT_TTL];
    }

    /** Read and clear: a verdict decides one turn. */
    method ReadRunOutcome(k: Key, now: int) returns (r: Option<Outcome>)
      modifies this
      ensures r == OutcomeRead(old(Of(k)), now)
      ensures Of(k) == old(Of(k)).(outcome := None) && OthersKept(k)
    {
      if k !in outcomes { return None; }
      var stored := outcomes[k];
      outcomes := outcomes - {k};
      r := if stored.expiresAt <= now then None else Some(stored.outcome);
    }

    method ConsumeOwnerAbort(k: Key, now: int) returns (marked: bool)
      modifies this
      ensures marked == StopMarked(old(Of(k)), now)
      ensures Of(k) == old(Of(k)).(stop := None) && OthersKept(k)
    {
      if k !in ownerAborts { return false; }
      marked := ownerAborts[k] > now;
      ownerAborts := ownerAborts - {k};
    }

    method ClaimContinuation(k: Key, now: int) returns (attempt: Option<nat>)
      modifies this
      ensures (Of(k), attempt) == Claimed(old(Of(k)), now) && OthersKept(k)
    {
      var count := 0;
      if k in continuations && continuations[k].expiresAt > now { count := continuations[k].count; }
      if count >= MAX_CONTINUATIONS { return None; }
      continuations := continuations[k := Counter(count + 1, now + CONTINUATION_TTL)];
      return Some(count + 1);
    }

    method ResetContinuations(k: Key)
      modifies this
      ensures Of(k) == old(Of(k)).(counter := None) && OthersKept(k)
    {
      continuations := continuations - {k};
    }

    /** Others act on the session while the turn waits. */
    method Meanwhile(k: Key, outside: Session -> Session)
      modifies this
      ensures Of(k) == outside(old(Of(k))) && OthersKept(k)
    {
      var s := outside(Of(k));
      outcomes := if s.outcome.Some? then outcomes[k := s.outcome.value] else outcomes - {k};
      ownerAborts := if s.stop.Some? then ownerAborts[k := s.stop.value] else ownerAborts - {k};
      continuations := if s.counter.Some? then continuations[k := s.counter.value] else continuations - {k};
    }
  }

  /** `dispatchWithAdmissionRetries` with its loop. */
  method DispatchWithAdmissionRetries(tries: nat -> Try) returns (ok: bool, count: nat, started: bool)
    ensures Dispatched(ok, count, started) == Dispatch(tries, 0)
    ensures 1 <= count <= 1 + MAX_ADMISSION_REDISPATCHES
    ensures forall i :: 0 <= i < count - 1 ==> !tries(i).ok && tries(i).race && !tries(i).delivered && !tries(i).started
  {
    var last := tries(0);
    count := 1;
    while !last.ok && count <= MAX_ADMISSION_REDISPATCHES && last.race && !last.delivered && !last.started
      invariant 1 <= count <= 1 + MAX_ADMISSION_REDISPATCHES && last == tries(count - 1)
      invariant Dispatch(tries, 0) == Dispatch(tries, count - 1)
      invariant forall i :: 0 <= i < count - 1 ==> !tries(i).ok && tries(i).race && !tries(i).delivered && !tries(i).started
    {
      last := tries(count);
      count := count + 1;
    }
    ok, started := last.ok, last.started;
  }

  method RecoverIfTransport(run: RunOutcomes, k: Key, seen: Seen, reasked: bool, endedOnItsOwn: bool, silenceChosen: bool)
    returns (v: Verdict)
    modifies run
    ensures (run.Of(k), v) == RecoveredIfTransport(old(run.Of(k)), seen, reasked, endedOnItsOwn, silenceChosen)
    ensures run.OthersKept(k)
  {
    if !seen.transport {
      if endedOnItsOwn && !seen.answered && !seen.human { return Asked(reasked, silenceChosen); }
      return Close(Failed);
    }
    var attempt := run.ClaimContinuation(k, seen.now);
    v := if attempt.None? then Close(Failed) else Resume(attempt.value);
  }

  method ResolveTurnEnd(run: RunOutcomes, k: Key, seen: Seen, reasked: bool) returns (v: Verdict)
    modifies run
    ensures (run.Of(k), v) == Resolved(old(run.Of(k)), seen, reasked, true)
    ensures run.OthersKept(k)
  {
    var marked := run.ConsumeOwnerAbort(k, seen.now);
    if marked || seen.aborted {
      run.ResetContinuations(k);
      return Close(Completed);
    }
    if !seen.errorFinal {
      if !seen.answered { return if seen.steer then Close(Completed) else Asked(reasked, true); }
      run.ResetContinuations(k);
      return Close(Completed);
    }
    var outcome := run.ReadRunOutcome(k, seen.now);
    if outcome.None? {
      v := RecoverIfTransport(run, k, seen, reasked, true, false);
      return;
    }
    if outcome.value.success {
      if seen.answered {
        run.ResetContinuations(k);
        return Close(Completed);
      }
      v := RecoverIfTransport(run, k, seen, reasked, true, true);
      return;
    }
    if outcome.value.hasError {
      v := RecoverIfTransport(run, k, seen, reasked, false, false);
      return;
    }
    var attempt := run.ClaimContinuation(k, seen.now);
    v := if attempt.None? then Close(Failed) else Resume(attempt.value);
  }

  /** A turn and everything that follows it up. */
  method StartInboundTurn(run: RunOutcomes, k: Key, turns: seq<Turn>, p: Params) returns (trace: Trace)
    modifies run
    ensures trace == Chain(turns, old(run.Of(k)), p) && run.Of(k) == trace.session
    ensures run.OthersKept(k)
    decreases |turns|
  {
    if turns == [] { return Trace(0, false, [], 0, [], run.Of(k)); }
    var t := turns[0];
    var ok, count, started := DispatchWithAdmissionRetries(t.tries);
    run.Meanwhile(k, t.outside);
    // finishTurn
    var v;
    if ok {
      v := ResolveTurnEnd(run, k, t.seen, p.reasked);
    } else {
      var marked := run.ConsumeOwnerAbort(k, t.seen.now);
      v := Close(if marked || t.seen.aborted then Completed else Failed);
    }
    var held := ok && v.AskAgain? && !started;
    var ends := [];
    if !held { ends := [End(p.message, StatusOf(v))]; }
    var freed := 0;
    if p.slot && !held { freed := 1; }
    // startPendingContinuation
    if v.Close? || t.seen.aborted || t.stopped { return Trace(1, true, ends, freed, [count], run.Of(k)); }
    if t.startFails {
      if held && p.slot { freed := freed + 1; }
      return Trace(1, true, ends, freed, [count], run.Of(k));
    }
    var rest := StartInboundTurn(run, k, turns[1..], FollowUp(p, v, held));
    trace := Trace(1 + rest.used, rest.over, ends + rest.ends, freed + rest.freed, [count] + rest.dispatches, rest.session);
  }
}
