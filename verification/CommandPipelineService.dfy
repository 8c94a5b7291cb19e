/** What becomes of each command and each result: when a slot empties, what an offer does, and that all are served. */
module CommandPipelineService {
  import opened Common
  import opened CommandPipeline
  import opened CommandPipelineRuns

  // --- the stored result ------------------------------------------------------------------------

  /** The end of its flush with success, an invalidated session or a 401. */
  predicate FlushSettles(s: State, e: Event) {
    e.FlushEnds? && s.ping.Flushing? && e.outcome in {FlushOk, Invalidated, Unauthorized}
  }

  /** A loop head with a token finds the result to belong to another session. */
  predicate DropsForeign(s: State, e: Event) {
    e.LoopHead? && s.ping.Top? && s.token && s.pending.Some? && s.session != Some(s.pending.value.instance)
  }

  lemma HeldStep(s: State, e: Event)
    requires Inv(s) && s.pending.Some? && !FlushSettles(s, e) && !DropsForeign(s, e)
    ensures Step(s, e).pending == s.pending
  {}

  /** In every run a stored result leaves the slot in exactly these steps; no step replaces it. */
  lemma ResultLeavesExactly(session: Option<nat>, token: bool, es: seq<Event>, s: State, e: Event)
    requires s == Exec(Init(session, token), es) && s.pending.Some?
    ensures Step(s, e).pending != s.pending <==> FlushSettles(s, e) || DropsForeign(s, e)
    ensures Step(s, e).pending != s.pending ==>
              var fate := if e.LoopHead? then SessionLost else if e.outcome == FlushOk then Acked else Cleared;
              Step(s, e).pending.None? && Step(s, e).log == s.log + [Left(s.pending.value, fate)]
  {
    assert Inv(s) by { RunKeeps(session, token, es); }
    if FlushSettles(s, e) { FlushEmpties(s, e); }
    else if DropsForeign(s, e) { assert Step(s, e) == Forget(Release(s, SessionLost)); }
    else { HeldStep(s, e); }
  }

  lemma FlushEmpties(s: State, e: Event)
    requires Inv(s) && FlushSettles(s, e)
    ensures var t := Step(s, e);
            t.pending.None? && t.log == s.log + [Left(s.pending.value, if e.outcome == FlushOk then Acked else Cleared)]
  {}

  /** None of these steps is taken. */
  ghost predicate KeepsResult(s: State, es: seq<Event>) {
    forall n :: 0 <= n < |es| ==> !FlushSettles(Exec(s, es[..n]), es[n]) && !DropsForeign(Exec(s, es[..n]), es[n])
  }

  /**
   Whatever else happens meanwhile, any number of failed flushes included, the result stays; and each loop head
   with a token under the result's session sends that very result.
   */
  lemma {:induction false} ResultIsSentAgain(s: State, es: seq<Event>)
    requires Inv(s) && s.pending.Some? && KeepsResult(s, es)
    ensures var t := Exec(s, es);
            && Inv(t) && t.pending == s.pending
            && (t.ping.Top? && t.token && t.session == Some(s.pending.value.instance) ==>
                  Step(t, LoopHead).ping == Flushing(s.pending.value))
  {
    if es != [] {
      var before := es[..|es| - 1];
      forall n | 0 <= n < |before|
        ensures !FlushSettles(Exec(s, before[..n]), before[n]) && !DropsForeign(Exec(s, before[..n]), before[n])
      {
        assert before[..n] == es[..n] && before[n] == es[n];
      }
      ResultIsSentAgain(s, before);
      HeldStep(Exec(s, before), es[|es| - 1]);
      StepKeeps(Exec(s, before), es[|es| - 1]);
    }
  }

  // --- the ping loop ----------------------------------------------------------------------------

  /** A loop head starts a flush exactly for a result of this session, and probes exactly when nothing is stored. */
  lemma HeadDecides(s: State)
    requires s.ping.Top?
    ensures var p := Step(s, LoopHead).ping;
            && (p.Flushing? <==> s.token && s.pending.Some? && s.session == Some(s.pending.value.instance))
            && (p.Flushing? ==> p.work == s.pending.value)
            && (p.Probing? <==> s.token && s.pending.None?)
            && (p.Top? <==> !s.token || (s.pending.Some? && s.session != Some(s.pending.value.instance)))
  {}

  /**
   A session is given up exactly when the cloud invalidates it, on a 401, and after the disconnect notice;
   the token exactly on a 401; an offer leaves the session it ran under.
   */
  lemma SessionEndsExactly(s: State, e: Event)
    requires Enabled(s, e) && !e.SessionChange? && !e.TokenChange?
    ensures var t := Step(s, e);
            var revoked := e == FlushEnds(Unauthorized) || e == PingEnds(PingUnauthorized);
            && t.session == (if revoked || e == FlushEnds(Invalidated) || e == PingEnds(PingInvalidated) || e == LeaveEnds then None
                             else if e.PingEnds? && e.result.Offer? then Some(e.result.instance) else s.session)
            && t.token == (s.token && !revoked)
  {}

  /** What others do to the session and the token touches nothing else. */
  lemma OutsideChanges(s: State, session: Option<nat>, token: bool)
    ensures Step(s, SessionChange(session)) == s.(session := session)
    ensures Step(s, TokenChange(token)) == s.(token := token)
  {}

  /** The loop comes back to its head from every wait, but for a put into a full queue and a disconnect that was acked. */
  lemma LoopComesBack(s: State, e: Event)
    requires Enabled(s, e) && (e.FlushEnds? || e.PingEnds? || e.PutEnds? || e.LeaveEnds? || e.PingCrash?)
    ensures var p := Step(s, e).ping;
            && (p.Leaving? <==> e == FlushEnds(FlushOk) && s.ping.work.disconnect)
            && (p.Gone? <==> e == LeaveEnds)
            && (p.Putting? <==> e.PingEnds? && e.result.Offer? && e.result.command.Some?
                                && s.dispatched != Some(e.result.command.value.0) && |s.queue| >= CAPACITY)
            && (p.Top? <==> !p.Leaving? && !p.Gone? && !p.Putting?)
  {}

  // --- offers -----------------------------------------------------------------------------------

  /**
   In every run a command that the cloud offers is dispatched exactly unless it is the last one dispatched since
   an ack or a session loss; it is put into the queue at once, or waits to be put while the queue is full.
   */
  lemma OfferedExactly(session: Option<nat>, token: bool, es: seq<Event>, s: State, instance: nat, id: nat, disconnect: bool)
    requires s == Exec(Init(session, token), es) && s.ping.Probing?
    ensures var t, work := Step(s, PingEnds(Offer(instance, Some((id, disconnect))))), Work(id, instance, disconnect, s.count);
            if LastDispatch(s.log) == Some(id) then t == s.(session := Some(instance), ping := Top)
            else if |s.queue| < CAPACITY then
              t.log == s.log + [Dispatched(id)] + [Enqueued(work)] && t.queue == s.queue + [work] && t.ping == Top
            else t.log == s.log + [Dispatched(id)] && t.queue == s.queue && t.ping == Putting(work)
  {
    assert Inv(s) by { RunKeeps(session, token, es); }
  }

  /** A ping without a command changes nothing but the session. */
  lemma NothingOffered(s: State, instance: nat)
    requires s.ping.Probing?
    ensures Step(s, PingEnds(Offer(instance, None))) == s.(session := Some(instance), ping := Top)
  {}

  /** A dispatched command was put into the queue right after, or is being put. */
  predicate IsPut(log: seq<Entry>, ping: Ping, i: nat)
    requires i < |log|
  {
    log[i].Dispatched? ==>
      if i + 1 < |log| then log[i + 1].Enqueued? && log[i + 1].work.id == log[i].id
      else ping.Putting? && ping.work.id == log[i].id
  }

  ghost predicate AllPut(log: seq<Entry>, ping: Ping) { forall i :: 0 <= i < |log| ==> IsPut(log, ping, i) }

  lemma PutGrows(log: seq<Entry>, ping: Ping, e: Entry, after: Ping)
    requires AllPut(log, ping)
    requires log != [] && log[|log| - 1].Dispatched? ==> e.Enqueued? && e.work.id == log[|log| - 1].id
    requires e.Dispatched? ==> after.Putting? && after.work.id == e.id
    ensures AllPut(log + [e], after)
  {
    forall i | 0 <= i < |log + [e]| ensures IsPut(log + [e], after, i) {
      if i < |log| { assert IsPut(log, ping, i); }
    }
  }

  lemma PutLoopMoves(log: seq<Entry>, ping: Ping, after: Ping)
    requires AllPut(log, ping) && (ping.Putting? ==> after == ping)
    ensures AllPut(log, after)
  {
    forall i | 0 <= i < |log| ensures IsPut(log, after, i) { assert IsPut(log, ping, i); }
  }

  lemma PutOffer(s: State, instance: nat, command: Option<(nat, bool)>)
    requires AllPut(s.log, s.ping) && s.ping.Probing?
    ensures AllPut(OnOffer(s, instance, command).log, OnOffer(s, instance, command).ping)
  {
    if s.log != [] { assert IsPut(s.log, s.ping, |s.log| - 1); }
    if command.Some? && s.dispatched != Some(command.value.0) {
      var work := Work(command.value.0, instance, command.value.1, s.count);
      PutGrows(s.log, s.ping, Dispatched(work.id), Putting(work));
      PutGrows(s.log + [Dispatched(work.id)], Putting(work), Enqueued(work), Top);
    } else {
      PutLoopMoves(s.log, s.ping, Top);
    }
  }

  lemma PutRelease(s: State, fate: Fate, after: Ping)
    requires AllPut(s.log, s.ping) && !s.ping.Putting? && !after.Putting?
    ensures AllPut(Release(s, fate).log, after)
  {
    if s.log != [] { assert IsPut(s.log, s.ping, |s.log| - 1); }
    PutLoopMoves(s.log, s.ping, after);
    if s.pending.Some? { PutGrows(s.log, s.ping, Left(s.pending.value, fate), after); }
  }

  lemma PutFlush(s: State, outcome: FlushOutcome)
    requires AllPut(s.log, s.ping) && s.ping.Flushing?
    ensures AllPut(OnFlushEnds(s, outcome).log, OnFlushEnds(s, outcome).ping)
  {
    var after := OnFlushEnds(s, outcome).ping;
    assert Release(Forget(s), Acked).log == Release(s, Acked).log;
    PutRelease(s, Acked, after);
    PutRelease(s, Cleared, after);
    PutLoopMoves(s.log, s.ping, after);
  }

  lemma PutHead(s: State)
    requires AllPut(s.log, s.ping) && s.ping.Top?
    ensures AllPut(OnLoopHead(s).log, OnLoopHead(s).ping)
  {
    PutRelease(s, SessionLost, s.ping);
    PutLoopMoves(s.log, s.ping, OnLoopHead(s).ping);
  }

  lemma PutEnded(s: State)
    requires Inv(s) && AllPut(s.log, s.ping) && s.ping.Putting?
    ensures AllPut(Enqueue(s, s.ping.work).log, Top)
  {
    PutGrows(s.log, s.ping, Enqueued(s.ping.work), Top);
  }

  lemma PutStep(s: State, e: Event)
    requires Inv(s) && AllPut(s.log, s.ping) && !e.PingCrash?
    ensures AllPut(Step(s, e).log, Step(s, e).ping)
  {
    if Enabled(s, e) {
      match e
      case LoopHead => PutHead(s);
      case FlushEnds(outcome) => PutFlush(s, outcome);
      case PingEnds(result) =>
        if result.Offer? { PutOffer(s, result.instance, result.command); } else { PutLoopMoves(s.log, s.ping, Top); }
      case PutEnds => PutEnded(s);
      case LeaveEnds => PutLoopMoves(s.log, s.ping, Gone);
      case _ =>
    }
  }

  /** So in a run in which the ping loop does not crash no command is lost between the mark and the queue. */
  lemma {:induction false} DispatchedIsPut(session: Option<nat>, token: bool, es: seq<Event>)
    requires PingCrash !in es
    ensures AllPut(Exec(Init(session, token), es).log, Exec(Init(session, token), es).ping)
  {
    if es != [] {
      DispatchedIsPut(session, token, es[..|es| - 1]);
      RunKeeps(session, token, es[..|es| - 1]);
      PutStep(Exec(Init(session, token), es[..|es| - 1]), es[|es| - 1]);
    }
  }

  /** A crash of the ping loop loses exactly the command being put: it counts as dispatched and is in no queue. */
  lemma CrashLosesThePut(session: Option<nat>, token: bool, es: seq<Event>, s: State)
    requires s == Exec(Init(session, token), es) && !s.ping.Gone?
    ensures Step(s, PingCrash) == s.(ping := Top)
    ensures s.ping.Putting? ==>
              LastDispatch(s.log) == Some(s.ping.work.id) && s.log[|s.log| - 1] == Dispatched(s.ping.work.id)
  {
    assert Inv(s) by { RunKeeps(session, token, es); }
    if s.ping.Putting? {
      Appended(s.log[..|s.log| - 1], s.log[|s.log| - 1]);
      assert s.log == s.log[..|s.log| - 1] + [s.log[|s.log| - 1]];
    }
  }

  // --- the executor -----------------------------------------------------------------------------

  function InHand(x: Executor): seq<Work> { if x.Idle? then [] else [x.work] }

  lemma OfferTakesNothing(s: State, e: Event)
    requires Enabled(s, e) && (e.LoopHead? || e.FlushEnds? || e.PingEnds? || e.PutEnds?)
    ensures var t := Step(s, e); t.taken == s.taken && t.handed == s.handed && t.executor == s.executor
  {}

  lemma HandStep(s: State, e: Event)
    requires s.taken == s.handed + InHand(s.executor) && e != ExecutorCrash
    ensures var t := Step(s, e); t.taken == t.handed + InHand(t.executor)
  {
    if Enabled(s, e) && (e.LoopHead? || e.FlushEnds? || e.PingEnds? || e.PutEnds?) { OfferTakesNothing(s, e); }
  }

  /** In a run in which the executor does not crash, each command taken is handed over as a result, in order, or in hand. */
  lemma {:induction false} TakenIsHandedOver(session: Option<nat>, token: bool, es: seq<Event>)
    requires ExecutorCrash !in es
    ensures var s := Exec(Init(session, token), es); s.taken == s.handed + InHand(s.executor)
  {
    if es != [] {
      TakenIsHandedOver(session, token, es[..|es| - 1]);
      HandStep(Exec(Init(session, token), es[..|es| - 1]), es[|es| - 1]);
    }
  }

  /** A crash of the executor loses exactly the command in hand. */
  lemma CrashLosesWhatIsInHand(s: State)
    requires !s.executor.Idle?
    ensures Step(s, ExecutorCrash) == s.(executor := Idle)
  {}

  // --- all are served ---------------------------------------------------------------------------

  /** The work that is somewhere between the offer and the ack, oldest first. */
  function Held(s: State): seq<Work> { Slot(s.pending) + Unfinished(s) }

  function Unfinished(s: State): seq<Work> { InHand(s.executor) + s.queue + if s.ping.Putting? then [s.ping.work] else [] }

  /** The loop works under `instance` and nothing held asks it to disconnect or belongs to another session. */
  ghost predicate Serves(s: State, instance: nat) {
    && Inv(s) && s.token && s.session == Some(instance) && !s.ping.Leaving? && !s.ping.Gone?
    && forall i :: 0 <= i < |Held(s)| ==> Held(s)[i].instance == instance && !Held(s)[i].disconnect
  }

  /** The results that were acked, in order. */
  function AckedIn(log: seq<Entry>): seq<Work> {
    if log == [] then []
    else AckedIn(log[..|log| - 1]) +
         if log[|log| - 1].Left? && log[|log| - 1].fate == Acked then [log[|log| - 1].work] else []
  }

  lemma AckedMore(log: seq<Entry>, e: Entry)
    ensures AckedIn(log + [e]) == AckedIn(log) + if e.Left? && e.fate == Acked then [e.work] else []
  {
    assert (log + [e])[..|log|] == log;
  }

  /** No new command, no crash, no change from outside. */
  predicate Routine(e: Event) {
    e.LoopHead? || e.PutEnds? || e.Take? || e.Finish? || e.Deliver? || e == FlushEnds(FlushOk) || e == FlushEnds(FlushFailed)
    || e == PingEnds(PingFailed)
  }

  ghost predicate AllRoutine(es: seq<Event>) { forall i :: 0 <= i < |es| ==> Routine(es[i]) }

  lemma {:induction false} ExecAppends(s: State, a: seq<Event>, b: seq<Event>)
    ensures Exec(s, a + b) == Exec(Exec(s, a), b)
  {
    if b == [] {
      assert a + b == a;
    } else {
      ExecAppends(s, a, b[..|b| - 1]);
      assert (a + b)[..|a + b| - 1] == a + b[..|b| - 1];
    }
  }

  /** From `s` to `t` exactly the results of `done` were acked, and the rest is still held in the same order. */
  ghost predicate Progressed(s: State, t: State, done: seq<Work>) {
    AckedIn(t.log) == AckedIn(s.log) + done && Held(s) == done + Held(t)
  }

  lemma ServesOn(s: State, t: State, instance: nat, done: seq<Work>)
    requires Serves(s, instance) && Progressed(s, t, done)
    requires Inv(t) && t.token && t.session == s.session && !t.ping.Leaving? && !t.ping.Gone?
    ensures Serves(t, instance)
  {
    forall i | 0 <= i < |Held(t)| ensures Held(t)[i].instance == instance && !Held(t)[i].disconnect {
      assert Held(t)[i] == Held(s)[|done| + i];
    }
  }

  /** The events of `es` lead from `s` to `t`, which still serves, and so far `done` was acked. */
  ghost predicate Leads(s: State, es: seq<Event>, t: State, instance: nat, done: seq<Work>) {
    t == Exec(s, es) && AllRoutine(es) && Serves(t, instance) && Progressed(s, t, done)
  }

  lemma Stay(s: State, instance: nat)
    requires Serves(s, instance)
    ensures Leads(s, [], s, instance, [])
  {}

  /** One more event, with which `done` is acked. */
  lemma Then(s: State, es: seq<Event>, t: State, instance: nat, e: Event, done: seq<Work>) returns (more: seq<Event>, u: State)
    requires Leads(s, es, t, instance, []) && Routine(e) && Progressed(t, Step(t, e), done) && Serves(Step(t, e), instance)
    ensures u == Step(t, e) && Leads(s, more, u, instance, done)
  {
    more, u := es + [e], Step(t, e);
    assert more[..|es|] == es;
    AckedLater(AckedIn(s.log), done);
  }

  lemma AckedLater(acked: seq<Work>, done: seq<Work>)
    ensures acked + [] + done == acked + done && [] + done == done
  {}

  /** Two stretches, the first without an ack. */
  lemma Joined(s: State, es: seq<Event>, t: State, more: seq<Event>, u: State, instance: nat, done: seq<Work>)
    requires Leads(s, es, t, instance, []) && Leads(t, more, u, instance, done)
    ensures Leads(s, es + more, u, instance, done)
  {
    ExecAppends(s, es, more);
    AckedLater(AckedIn(s.log), done);
  }

  // The steps of serving, each with what it does to what is held.

  lemma PutMoves(s: State, instance: nat)
    requires Serves(s, instance) && s.ping.Putting? && |s.queue| < CAPACITY
    ensures var t := Step(s, PutEnds);
            && Progressed(s, t, []) && Serves(t, instance)
            && t == s.(queue := s.queue + [s.ping.work], ping := Top, log := t.log)
  {
    var t := Step(s, PutEnds);
    AckedMore(s.log, Enqueued(s.ping.work));
    assert Inv(t) by { StepKeeps(s, PutEnds); }
    PutHolds(s);
    ServesOn(s, t, instance, []);
  }

  lemma PutHolds(s: State)
    requires s.ping.Putting? && |s.queue| < CAPACITY
    ensures Held(Step(s, PutEnds)) == Held(s)
  {
    PutAtTheEnd(InHand(s.executor), s.queue, s.ping.work);
  }

  lemma TakeHolds(s: State)
    requires s.executor.Idle? && s.queue != []
    ensures Held(Step(s, Take)) == Held(s)
  {
    assert s.queue == [s.queue[0]] + s.queue[1..];
  }

  lemma PutAtTheEnd(hand: seq<Work>, queue: seq<Work>, w: Work)
    ensures hand + (queue + [w]) + [] == hand + queue + [w]
  {}

  lemma TakeMoves(s: State, instance: nat)
    requires Serves(s, instance) && s.executor.Idle? && s.queue != []
    ensures var t := Step(s, Take);
            && Progressed(s, t, []) && Serves(t, instance)
            && t.executor == Executing(s.queue[0]) && t.queue == s.queue[1..] && t.ping == s.ping && t.pending == s.pending
  {
    assert Inv(Step(s, Take)) by { StepKeeps(s, Take); }
    TakeHolds(s);
    ServesOn(s, Step(s, Take), instance, []);
  }

  lemma FinishMoves(s: State, instance: nat)
    requires Serves(s, instance) && s.executor.Executing?
    ensures var t := Step(s, Finish);
            Progressed(s, t, []) && Serves(t, instance) && t == s.(executor := Delivering(s.executor.work))
  {
    StepKeeps(s, Finish);
    assert Held(s) == Held(Step(s, Finish));
    ServesOn(s, Step(s, Finish), instance, []);
  }

  lemma DeliverMoves(s: State, instance: nat)
    requires Serves(s, instance) && s.executor.Delivering? && s.pending.None?
    ensures var t := Step(s, Deliver);
            Progressed(s, t, []) && Serves(t, instance) && t.pending == Some(s.executor.work) && t.ping == s.ping
  {
    var t := Step(s, Deliver);
    StepKeeps(s, Deliver);
    assert Held(s) == Held(t);
    ServesOn(s, t, instance, []);
  }

  lemma HeadMoves(s: State, instance: nat)
    requires Serves(s, instance) && s.ping.Top? && s.pending.Some?
    ensures var t := Step(s, LoopHead);
            Progressed(s, t, []) && Serves(t, instance) && t == s.(ping := Flushing(s.pending.value))
  {
    var t := Step(s, LoopHead);
    StepKeeps(s, LoopHead);
    assert Held(s)[0] == s.pending.value;
    assert Held(s) == Held(t);
    ServesOn(s, t, instance, []);
  }

  lemma FlushMoves(s: State, instance: nat)
    requires Serves(s, instance) && s.ping.Flushing? && s.pending.Some?
    ensures var t := Step(s, FlushEnds(FlushOk));
            Progressed(s, t, [s.pending.value]) && Serves(t, instance) && t.pending.None? && t.ping.Top?
  {
    var t := Step(s, FlushEnds(FlushOk));
    assert Held(s)[0] == s.pending.value == s.ping.work;
    FlushGives(s);
    StepKeeps(s, FlushEnds(FlushOk));
    AckedMore(s.log, Left(s.pending.value, Acked));
    assert Held(t) == Unfinished(s);
    ServesOn(s, t, instance, [s.pending.value]);
  }

  lemma FlushGives(s: State)
    requires Inv(s) && s.ping.Flushing? && !s.ping.work.disconnect
    ensures Step(s, FlushEnds(FlushOk)) == s.(pending := None, canAccept := true, ping := Top,
                                              dispatched := None, registry := None,
                                               log := s.log + [Left(s.pending.value, Acked)])
  {}

  lemma ProbeMoves(s: State, instance: nat)
    requires Serves(s, instance) && s.ping.Probing?
    ensures var t := Step(s, PingEnds(PingFailed)); Progressed(s, t, []) && Serves(t, instance) && t == s.(ping := Top)
  {
    StepKeeps(s, PingEnds(PingFailed));
    assert Held(s) == Held(Step(s, PingEnds(PingFailed)));
    ServesOn(s, Step(s, PingEnds(PingFailed)), instance, []);
  }

  /** With a result stored, the loop gets to its head: a put into a full queue waits for the executor, which is idle then. */
  lemma FreesTheLoop(s: State, instance: nat) returns (es: seq<Event>, t: State)
    requires Serves(s, instance) && s.pending.Some? && !s.ping.Flushing?
    ensures Leads(s, es, t, instance, []) && t.ping.Top? && t.pending == s.pending
  {
    Stay(s, instance);
    es, t := [], s;
    if s.ping.Probing? {
      ProbeMoves(s, instance);
      es, t := Then(s, es, t, instance, PingEnds(PingFailed), []);
    } else if s.ping.Putting? {
      if |s.queue| == CAPACITY {
        TakeMoves(s, instance);
        es, t := Then(s, es, t, instance, Take, []);
      }
      PutMoves(t, instance);
      es, t := Then(s, es, t, instance, PutEnds, []);
    }
  }

  /** A stored result is acked. */
  lemma AcksTheResult(s: State, instance: nat) returns (es: seq<Event>, t: State)
    requires Serves(s, instance) && s.pending.Some?
    ensures Leads(s, es, t, instance, [s.pending.value])
  {
    Stay(s, instance);
    es, t := [], s;
    if !s.ping.Flushing? {
      es, t := FreesTheLoop(s, instance);
      HeadMoves(t, instance);
      es, t := Then(s, es, t, instance, LoopHead, []);
    }
    FlushMoves(t, instance);
    es, t := Then(s, es, t, instance, FlushEnds(FlushOk), [s.pending.value]);
  }

  lemma TakesTheOldest(s: State, instance: nat) returns (es: seq<Event>, t: State)
    requires Serves(s, instance) && s.pending.None? && Held(s) != []
    ensures Leads(s, es, t, instance, []) && t.pending.None? && !t.executor.Idle?
  {
    Stay(s, instance);
    es, t := [], s;
    if s.executor.Idle? {
      if s.queue == [] {
        assert s.ping.Putting?;
        PutMoves(s, instance);
        es, t := Then(s, es, t, instance, PutEnds, []);
      }
      TakeMoves(t, instance);
      es, t := Then(s, es, t, instance, Take, []);
    }
  }

  /** With the slot empty, the oldest command held becomes a stored result. */
  lemma DeliversTheOldest(s: State, instance: nat) returns (es: seq<Event>, t: State)
    requires Serves(s, instance) && s.pending.None? && Held(s) != []
    ensures Leads(s, es, t, instance, []) && t.pending == Some(Held(s)[0])
  {
    es, t := TakesTheOldest(s, instance);
    if t.executor.Executing? {
      FinishMoves(t, instance);
      es, t := Then(s, es, t, instance, Finish, []);
    }
    assert Held(t)[0] == t.executor.work;
    DeliverMoves(t, instance);
    es, t := Then(s, es, t, instance, Deliver, []);
  }

  lemma ServesOne(s: State, instance: nat) returns (es: seq<Event>, t: State)
    requires Serves(s, instance) && Held(s) != []
    ensures Leads(s, es, t, instance, [Held(s)[0]])
  {
    Stay(s, instance);
    es, t := [], s;
    if s.pending.None? { es, t := DeliversTheOldest(s, instance); }
    assert t.pending == Some(Held(s)[0]);
    var more, u := AcksTheResult(t, instance);
    Joined(s, es, t, more, u, instance, [Held(s)[0]]);
    es, t := es + more, u;
  }

  lemma OneThenTheRest(acked: seq<Work>, held: seq<Work>, rest: seq<Work>)
    requires held != [] && held == [held[0]] + rest
    ensures acked + [held[0]] + rest == acked + held && |rest| < |held|
  {}

  /**
   From every state in which the loop works under a session, with everything held belonging to it and none of it a
   disconnect: the two loops alone get every command and result through, each acked once, in order.
   */
  lemma {:induction false} AllAreServed(s: State, instance: nat) returns (es: seq<Event>, t: State)
    requires Serves(s, instance)
    ensures t == Exec(s, es) && AllRoutine(es) && Held(t) == [] && AckedIn(t.log) == AckedIn(s.log) + Held(s)
    decreases |Held(s)|
  {
    es, t := [], s;
    if Held(s) != [] {
      es, t := ServesOne(s, instance);
      var more, u := AllAreServed(t, instance);
      ExecAppends(s, es, more);
      OneThenTheRest(AckedIn(s.log), Held(s), Held(t));
      es, t := es + more, u;
    }
  }
}
