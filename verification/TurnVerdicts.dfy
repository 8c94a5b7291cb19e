/** What each verdict of a turn means, in terms of what is known of the turn and of the session's records. */
module TurnVerdicts {
  import opened Common
  import opened TurnChain

  // --- the records ------------------------------------------------------------------------------

  /** A recorded verdict counts for a minute, a stop for a minute, a claimed attempt for half an hour. */
  lemma RecordsLapse(s: Session, outcome: Outcome, count: nat, at: int, now: int)
    ensures OutcomeRead(s.(outcome := Some(Stored(outcome, at + RUN_OUTCOME_TTL))), now) ==
            if now < at + 60_000 then Some(outcome) else None
    ensures StopMarked(s.(stop := Some(at + OWNER_ABORT_TTL)), now) <==> now < at + 60_000
    ensures Spent(s.(counter := Some(Counter(count, at + CONTINUATION_TTL))), now) == if now < at + 1_800_000 then count else 0
  {}

  // --- the verdicts -----------------------------------------------------------------------------

  predicate Stopped(s: Session, seen: Seen) { StopMarked(s, seen.now) || seen.aborted }

  /** The engine's own verdict on the run, if it recorded one. */
  predicate RanFine(s: Session, seen: Seen) { OutcomeRead(s, seen.now).Some? && OutcomeRead(s, seen.now).value.success }

  /** The run aborted: it failed and no error family was attributed to it. */
  predicate Aborted(s: Session, seen: Seen) {
    var o := OutcomeRead(s, seen.now); o.Some? && !o.value.success && !o.value.hasError
  }

  /** The run failed with an error the engine attributed. */
  predicate Errored(s: Session, seen: Seen) {
    var o := OutcomeRead(s, seen.now); o.Some? && !o.value.success && o.value.hasError
  }

  /** An answer reached the owner and nothing says that the run failed. */
  predicate Good(s: Session, seen: Seen) { seen.answered && (seen.errorFinal ==> RanFine(s, seen)) }

  /** The run came to an error notice and is worth resuming: it aborted, or its connection broke. */
  predicate Resumable(s: Session, seen: Seen) {
    !Good(s, seen) && seen.errorFinal && (Aborted(s, seen) || seen.transport)
  }

  /** Nothing reached the owner of a run that ended on its own, and no person is needed to repair it. */
  predicate Silent(s: Session, seen: Seen) {
    && !seen.answered
    && if seen.errorFinal then !Errored(s, seen) && !Aborted(s, seen) && !seen.transport && !seen.human else !seen.steer
  }

  /** The agent is asked again exactly for the first silence of an owner message. */
  lemma AskedAgainExactly(s: Session, seen: Seen, reasked: bool)
    ensures Resolved(s, seen, reasked, true).1 == AskAgain <==> !Stopped(s, seen) && Silent(s, seen) && !reasked
  {}

  /** A turn is resumed exactly when it is worth it and fewer than two attempts are spent; this one is the next. */
  lemma ResumedExactly(s: Session, seen: Seen, reasked: bool, n: nat)
    ensures Resolved(s, seen, reasked, true).1 == Resume(n) <==>
              !Stopped(s, seen) && Resumable(s, seen) && Spent(s, seen.now) < 2 && n == Spent(s, seen.now) + 1
  {}

  /**
   The owner is told of a failure exactly when the attempts are spent, when an error notice is neither
   outweighed by an answer nor worth resuming nor a mere silence, or when a silence without a verdict repeats.
   */
  lemma FailedExactly(s: Session, seen: Seen, reasked: bool)
    ensures Resolved(s, seen, reasked, true).1 == Close(Failed) <==>
              && !Stopped(s, seen) && seen.errorFinal && !Good(s, seen)
              && if Resumable(s, seen) then Spent(s, seen.now) >= 2
                 else !Silent(s, seen) || (reasked && !RanFine(s, seen))
  {}

  /**
   A turn closes for good without an error note exactly when the owner stopped it, an answer reached them,
   another run took the message over, or the agent was silent again after being asked and nothing says it failed.
   */
  lemma QuietEndIsEarned(s: Session, seen: Seen, reasked: bool)
    ensures Resolved(s, seen, reasked, true).1 == Close(Completed) <==>
              || Stopped(s, seen) || Good(s, seen)
              || (!seen.errorFinal && !seen.answered && seen.steer)
              || (Silent(s, seen) && reasked && (seen.errorFinal ==> RanFine(s, seen)))
  {}

  /** A dispatch that failed is a crash, unless the owner's stop caused it. */
  lemma CrashExactly(s: Session, seen: Seen, reasked: bool)
    ensures Resolved(s, seen, reasked, false) == (s.(stop := None), Close(if Stopped(s, seen) then Completed else Failed))
  {}

  /**
   What a judged turn leaves in the session's records: a stop mark is used up by any turn, a recorded outcome by
   one that came to an error notice; the attempts are given back exactly by a stop or a good answer and
   taken exactly by a resumption.
   */
  lemma RecordsAfter(s: Session, seen: Seen, reasked: bool)
    ensures var (t, v) := Resolved(s, seen, reasked, true);
            && t.stop.None?
            && t.outcome == (if !Stopped(s, seen) && seen.errorFinal then None else s.outcome)
            && t.counter == if Stopped(s, seen) || Good(s, seen) then None
                            else if v.Resume? then Some(Counter(Spent(s, seen.now) + 1, seen.now + 1_800_000))
                            else s.counter
  {}

  // --- dispatches -------------------------------------------------------------------------------

  /** The runtime refused the message before it admitted it, and nothing of it has reached the chat. */
  predicate Refused(t: Try) { !t.ok && t.race && !t.delivered && !t.started }

  /** The turn is dispatched again exactly while it is refused, three times at most; the last one decides. */
  lemma {:induction false} DispatchedExactly(tries: nat -> Try, n: nat, count: nat)
    requires n <= MAX_ADMISSION_REDISPATCHES
    ensures n < Dispatch(tries, n).count
    ensures Dispatch(tries, n).count == count <==>
              && n < count <= 3 && (forall i: nat :: n <= i < count - 1 ==> Refused(tries(i)))
              && (count < 3 ==> !Refused(tries(count - 1)))
    ensures var d := Dispatch(tries, n); d.ok == tries(d.count - 1).ok && d.started == tries(d.count - 1).started
    decreases MAX_ADMISSION_REDISPATCHES - n
  {
    DispatchGoesOn(tries, n);
    if Refused(tries(n)) && n < MAX_ADMISSION_REDISPATCHES {
      DispatchedExactly(tries, n + 1, count);
      DispatchedExactly(tries, n + 1, Dispatch(tries, n + 1).count);
    }
  }

  lemma DispatchGoesOn(tries: nat -> Try, n: nat)
    requires n <= MAX_ADMISSION_REDISPATCHES
    ensures Dispatch(tries, n) ==
            if Refused(tries(n)) && n < 2 then Dispatch(tries, n + 1) else Dispatched(tries(n).ok, n + 1, tries(n).started)
  {}

  // --- ends -------------------------------------------------------------------------------------

  /** The message is kept open exactly for a re-ask of a turn that has put nothing into it. */
  lemma HeldExactly(t: Turn, s: Session, p: Params)
    ensures var d := Dispatch(t.tries, 0);
            var before := t.outside(s);
            HeldOpen(t, s, p) <==>
              d.ok && !d.started && !Stopped(before, t.seen) && Silent(before, t.seen) && !p.reasked
  {
    AskedAgainExactly(t.outside(s), t.seen, p.reasked);
  }

  /** Any other turn ends its message at once, with an error note exactly when it failed. */
  lemma EndTellsTheVerdict(turns: seq<Turn>, s: Session, p: Params)
    requires turns != [] && !HeldOpen(turns[0], s, p)
    ensures var t, ends := turns[0], Chain(turns, s, p).ends;
            var v := Resolved(t.outside(s), t.seen, p.reasked, Dispatch(t.tries, 0).ok).1;
            ends != [] && ends[0] == End(p.message, if v == Close(Failed) then Failed else Completed)
  {}

  /**
   The chain goes on exactly after a turn that is to be resumed or asked again, that no stop followed and whose
   follow-up could start.
   */
  lemma GoesOnExactly(turns: seq<Turn>, s: Session, p: Params)
    requires |turns| > 1
    ensures var t := turns[0];
            var (after, v) := Resolved(t.outside(s), t.seen, p.reasked, Dispatch(t.tries, 0).ok);
            var goesOn := (v == AskAgain || v.Resume?) && !t.seen.aborted && !t.stopped && !t.startFails;
            && (Chain(turns, s, p).used > 1 <==> goesOn)
            && (goesOn ==> Chain(turns, s, p).session ==
                           Chain(turns[1..], after, FollowUp(p, v, HeldOpen(t, s, p))).session)
  {
    var t := turns[0];
    var (after, v) := Resolved(t.outside(s), t.seen, p.reasked, Dispatch(t.tries, 0).ok);
    var q := FollowUp(p, v, HeldOpen(t, s, p));
    if !v.Close? && !StoppedBefore(t) && !t.startFails {
      assert Chain(turns[1..], after, q).used >= 1;
    }
  }
}
