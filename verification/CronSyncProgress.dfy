/** From which states the projection worker catches up with the last request without being asked again. */
module CronSyncProgress {
  import opened Common
  import opened CronSync
  import opened CronSyncInvariant
  import opened CronSyncFiles
  import opened CronSyncRuns
  import opened CronSyncExits
  import opened CronSyncWorker

  predicate CaughtUp(w: Worker) { w.applied == w.requested }

  /** The attempt was cut at a point from which it can only end its link. */
  predicate Doomed(p: Pass) { p.cut && p.phase in {Numbering, Saving, Stamped, Failing, Sleeping} }

  /** Some link still waits, or an attempt is in flight that is not doomed. */
  predicate Hopeful(w: Worker) {
    LastWaits(w.chain) || (w.active.Some? && w.active.value in w.attempts && !Doomed(w.attempts[w.active.value]))
  }

  /** Nothing asks for another projection, and the process lives. */
  ghost predicate Unasked(es: seq<Event>) { forall i :: 0 <= i < |es| ==> !Requests(es[i]) && es[i] != Crash }

  // --- no hope ----------------------------------------------------------------------------------

  /** Behind, with nothing left to do about it. */
  ghost predicate Stuck(w: Worker) {
    && w.applied < w.requested && (forall k :: 0 <= k < |w.chain| ==> !w.chain[k].Waiting?)
    && (forall k :: k in w.attempts ==> Doomed(w.attempts[k]))
  }

  /** Only attempts were changed, and doomed ones stay doomed. */
  ghost predicate DoomedOn(w: Worker, v: Worker) {
    v == w.(attempts := v.attempts) && v.attempts.Keys == w.attempts.Keys
    && forall k :: k in w.attempts && Doomed(w.attempts[k]) ==> Doomed(v.attempts[k])
  }

  lemma DoomedStays(w: Worker, v: Worker)
    requires Stuck(w) && DoomedOn(w, v)
    ensures Stuck(v)
  {}

  lemma TurnStuck(s: State, e: Event)
    requires Stuck(s.worker) && Turns(e)
    ensures Stuck(Act(s, e).worker)
  {}

  lemma EarlyDoomed(s: State, e: Event)
    requires EarlyPass(e)
    ensures DoomedOn(s.worker, Act(s, e).worker)
  {}

  lemma LateDoomed(s: State, e: Event)
    requires (e.Send? || e.Answer?) && (forall k :: k in s.worker.attempts ==> Doomed(s.worker.attempts[k]))
    ensures DoomedOn(s.worker, Act(s, e).worker)
  {}

  lemma DropDoomed(s: State, k: nat, saved: bool)
    ensures DoomedOn(s.worker, PassDrop(s, k, saved).worker)
  {}

  lemma InterruptDoomed(s: State, e: Event)
    requires e.Throw? || e.Cut?
    ensures DoomedOn(s.worker, Act(s, e).worker)
  {}

  lemma SaveDoomed(s: State, ok: bool)
    ensures DoomedOn(s.worker, EndSave(s, ok).worker)
  {}

  lemma OtherDoomed(s: State, e: Event)
    requires !OfPass(e) && !e.Throw? && !e.Cut? && !e.SaveEnd? && !Requests(e) && !Turns(e) && e != Crash
    ensures DoomedOn(s.worker, Act(s, e).worker)
  {}

  lemma StuckStep(s: State, e: Event)
    requires Stuck(s.worker) && !Requests(e) && e != Crash
    ensures Stuck(Step(s, e).worker)
  {
    if Turns(e) {
      TurnStuck(s, e);
    } else {
      if EarlyPass(e) { EarlyDoomed(s, e); }
      else if e.Drop? { DropDoomed(s, e.link, e.saved); }
      else if e.Send? || e.Answer? { LateDoomed(s, e); }
      else if e.Throw? || e.Cut? { InterruptDoomed(s, e); }
      else if e.SaveEnd? { SaveDoomed(s, e.ok); }
      else { OtherDoomed(s, e); }
      DoomedStays(s.worker, Step(s, e).worker);
    }
  }

  lemma {:induction false} StuckRun(s: State, es: seq<Event>)
    requires Stuck(s.worker) && Unasked(es)
    ensures Stuck(Exec(s, es).worker)
  {
    if es != [] {
      StuckRun(s, es[..|es| - 1]);
      StuckStep(Exec(s, es[..|es| - 1]), es[|es| - 1]);
    }
  }

  lemma HopelessIsStuck(s: State)
    requires Full(s) && !CaughtUp(s.worker) && !Hopeful(s.worker)
    ensures Stuck(s.worker)
  {
    var w := s.worker;
    if w.chain != [] {
      forall k | 0 <= k < |w.chain| ensures !w.chain[k].Waiting? {
        if k < |w.chain| - 1 { assert !w.chain[|w.chain| - 1].Waiting?; }
      }
    }
  }

  // --- hope -------------------------------------------------------------------------------------

  /** The worker's own steps and file operations. */
  predicate OwnStep(e: Event) {
    e.Load? || e.SaveBegin? || e.SaveEnd? || e.Start? || OfPass(e) || e.Throw? || e.Return? || e.Catch? || e.Wake?
  }

  ghost predicate Ready(s: State) { Full(s) && Working(s.gate) }

  lemma OwnKeepsReady(s: State, e: Event)
    requires OwnStep(e) && Ready(s)
    ensures Ready(Step(s, e))
  {
    FullStep(s, e);
    OwnKeepsGate(s, e);
  }

  lemma OwnKeepsGate(s: State, e: Event)
    requires OwnStep(e)
    ensures Step(s, e).gate == s.gate
  {}

  /** The events of `es`, all of them the worker's own, lead from `s` to `t`. */
  ghost predicate Leads(s: State, es: seq<Event>, t: State) { t == Exec(s, es) && Unasked(es) && Ready(t) }

  lemma Stay(s: State)
    requires Full(s) && Working(s.gate)
    ensures Leads(s, [], s)
  {}

  lemma UnaskedMore(es: seq<Event>, e: Event)
    requires Unasked(es) && OwnStep(e)
    ensures Unasked(es + [e])
  {}

  lemma Then(s: State, es: seq<Event>, t: State, e: Event) returns (more: seq<Event>, u: State)
    requires Leads(s, es, t) && OwnStep(e)
    ensures u == Step(t, e) && Leads(s, more, u)
  {
    more, u := es + [e], Step(t, e);
    assert Exec(s, more) == u by { ExecPlus(s, es, e); }
    assert Unasked(more) by { UnaskedMore(es, e); }
    assert Ready(u) by { OwnKeepsReady(t, e); }
  }

  lemma {:induction false} ExecAppends(s: State, a: seq<Event>, b: seq<Event>)
    ensures Exec(s, a + b) == Exec(Exec(s, a), b)
  {
    if b == [] {
      assert a + b == a;
    } else {
      ExecAppends(s, a, b[..|b| - 1]);
      assert (a + b)[..|a + b| - 1] == a + b[..|b| - 1];
    }
  }

  lemma Joined(s: State, es: seq<Event>, t: State, more: seq<Event>, u: State)
    requires Leads(s, es, t) && Leads(t, more, u)
    ensures Leads(s, es + more, u)
  {
    ExecAppends(s, es, more);
  }

  /** An attempt for the latest revision is at its beginning. */
  ghost predicate Renewed(s: State, k: nat) {
    && k < |s.worker.chain| && k in s.worker.attempts && !s.worker.attempts[k].Aborted()
    && s.worker.requestedAt < s.worker.attempts[k].began && s.worker.attempts[k].phase in {Starting, Finishing}
  }

  ghost predicate Better(s: State) { CaughtUp(s.worker) || exists k :: Renewed(s, k) }

  lemma ReturnBetters(s: State, k: nat)
    requires Full(s) && Working(s.gate) && Runs(s, k, Finishing)
    ensures Better(Step(s, Return(k)))
    ensures !s.worker.attempts[k].Aborted() && s.worker.requestedAt < s.worker.attempts[k].began ==>
              CaughtUp(Step(s, Return(k)).worker)
  {
    var t := Step(s, Return(k));
    if !CaughtUp(t.worker) { assert Renewed(t, k); }
  }

  lemma GoesRound(s: State, e: Event)
    requires Full(s) && Working(s.gate) && !CaughtUp(s.worker)
    requires || (e.Catch? && Runs(s, e.link, Failing) && !s.worker.attempts[e.link].cut && s.worker.attempts[e.link].superseded)
             || (e.Wake? && Runs(s, e.link, Sleeping) && !s.worker.attempts[e.link].cut)
    ensures Better(Step(s, e))
  {
    assert Renewed(Step(s, e), e.link);
  }

  lemma FromFinishing(s: State, k: nat) returns (es: seq<Event>, t: State)
    requires Full(s) && Working(s.gate) && Runs(s, k, Finishing)
    ensures Leads(s, es, t) && Better(t)
  {
    Stay(s);
    ReturnBetters(s, k);
    es, t := Then(s, [], s, Return(k));
  }

  lemma FromSleeping(s: State, k: nat) returns (es: seq<Event>, t: State)
    requires Full(s) && Working(s.gate) && !CaughtUp(s.worker) && Runs(s, k, Sleeping) && !s.worker.attempts[k].cut
    ensures Leads(s, es, t) && Better(t)
  {
    Stay(s);
    GoesRound(s, Wake(k));
    es, t := Then(s, [], s, Wake(k));
  }

  lemma FromFailing(s: State, k: nat) returns (es: seq<Event>, t: State)
    requires Full(s) && Working(s.gate) && !CaughtUp(s.worker) && Runs(s, k, Failing) && !s.worker.attempts[k].cut
    ensures Leads(s, es, t) && Better(t)
  {
    Stay(s);
    es, t := Then(s, [], s, Catch(k));
    if s.worker.attempts[k].superseded {
      GoesRound(s, Catch(k));
    } else {
      var more, u := FromSleeping(t, k);
      Joined(s, es, t, more, u);
      es, t := es + more, u;
    }
  }

  /** What one own step makes of the attempt, its link and the revisions. */
  ghost predicate MovesTo(s: State, t: State, k: nat, phase: Phase) {
    && k in s.worker.attempts && Runs(t, k, phase)
    && t.worker.requested == s.worker.requested && t.worker.applied == s.worker.applied
    && t.worker.attempts[k].cut == s.worker.attempts[k].cut && t.worker.attempts[k].superseded == s.worker.attempts[k].superseded
    && t.worker.attempts[k].began == s.worker.attempts[k].began && t.worker.requestedAt == s.worker.requestedAt
    && t.worker.chain == s.worker.chain
  }

  lemma ThrowMoves(s: State, k: nat)
    requires k < |s.worker.chain| && k in s.worker.attempts && s.worker.attempts[k].phase in {Starting, Listing, Numbering, Posting}
    ensures MovesTo(s, Step(s, Throw(k)), k, Failing)
  {}

  lemma LoadMoves(s: State)
    requires Full(s) && s.store.mem.None?
    ensures var t := Step(s, Load(true, true)); t.store.mem.Some? && t.worker == s.worker
  {}

  lemma LoadedMoves(s: State, k: nat)
    requires Runs(s, k, Starting) && s.store.mem.Some?
    ensures MovesTo(s, Step(s, Loaded(k, true)), k, Finishing)
  {}

  /** The file is loaded, should it not be, and the projection returns early. */
  lemma StartingFinishes(s: State, k: nat) returns (es: seq<Event>, t: State)
    requires Full(s) && Working(s.gate) && Runs(s, k, Starting)
    ensures Leads(s, es, t) && MovesTo(s, t, k, Finishing)
  {
    Stay(s);
    es, t := [], s;
    if s.store.mem.None? {
      LoadMoves(s);
      es, t := Then(s, es, t, Load(true, true));
    }
    LoadedMoves(t, k);
    es, t := Then(s, es, t, Loaded(k, true));
  }

  lemma ListedMoves(s: State, k: nat)
    requires Full(s) && Runs(s, k, Listing) && s.worker.attempts[k].Aborted()
    ensures MovesTo(s, Step(s, Listed(k, {}, {})), k, Finishing)
  {
    assert PassOk(s.worker.attempts[k], s.store, s.sent, s.hushed);
  }

  lemma AnswerMoves(s: State, k: nat)
    requires Full(s) && Runs(s, k, Posting)
    ensures MovesTo(s, Step(s, Answer(k, false)), k, Finishing)
  {
    assert PassOk(s.worker.attempts[k], s.store, s.sent, s.hushed);
  }

  lemma DropMovesOn(s: State, k: nat)
    requires Full(s) && Runs(s, k, Dropping)
    ensures MovesTo(s, Step(s, Drop(k, true)), k, Finishing)
  {
    assert PassOk(s.worker.attempts[k], s.store, s.sent, s.hushed);
  }

  lemma SendMoves(s: State, k: nat)
    requires Full(s) && Runs(s, k, Stamped)
    ensures MovesTo(s, Step(s, Send(k)), k, if s.worker.attempts[k].Aborted() then Failing else Posting)
  {
    assert PassOk(s.worker.attempts[k], s.store, s.sent, s.hushed);
  }

  lemma OtherSaveEnds(s: State, k: nat)
    requires Full(s) && Runs(s, k, Saving) && s.store.writing.Some?
    ensures var t := Step(s, SaveEnd(false));
            if s.store.writing.value.owner == ByPass(k) then MovesTo(s, t, k, Failing)
            else MovesTo(s, t, k, Saving) && t.store.writing.None?
  {}

  lemma OwnSaveBegins(s: State, k: nat)
    requires Full(s) && Runs(s, k, Saving) && s.store.writing.None?
    ensures var t := Step(s, SaveBegin(ByPass(k)));
            MovesTo(s, t, k, Saving) && t.store.writing.Some? && t.store.writing.value.owner == ByPass(k)
  {
    assert PassOk(s.worker.attempts[k], s.store, s.sent, s.hushed);
  }

  /** Its save comes to its turn and fails. */
  lemma SavingFails(s: State, k: nat) returns (es: seq<Event>, t: State)
    requires Full(s) && Working(s.gate) && Runs(s, k, Saving)
    ensures Leads(s, es, t) && MovesTo(s, t, k, Failing)
  {
    Stay(s);
    es, t := [], s;
    if s.store.writing.Some? && s.store.writing.value.owner != ByPass(k) {
      OtherSaveEnds(s, k);
      es, t := Then(s, es, t, SaveEnd(false));
    }
    if t.store.writing.None? {
      OwnSaveBegins(t, k);
      es, t := Then(s, es, t, SaveBegin(ByPass(k)));
    }
    OtherSaveEnds(t, k);
    es, t := Then(s, es, t, SaveEnd(false));
  }

  /** From `s` to `t` the attempt came to its end: it returned, it threw, or it pauses already. */
  ghost predicate Ends(s: State, es: seq<Event>, t: State, k: nat) {
    && Leads(s, es, t) && k in s.worker.attempts
    && (MovesTo(s, t, k, Finishing) || MovesTo(s, t, k, Failing) || MovesTo(s, t, k, Sleeping))
    && (Doomed(s.worker.attempts[k]) ==> !MovesTo(s, t, k, Finishing))
    && (s.worker.attempts[k].cut && !Doomed(s.worker.attempts[k]) ==> MovesTo(s, t, k, Finishing))
  }

  lemma EarlyEnds(s: State, k: nat) returns (es: seq<Event>, t: State)
    requires Full(s) && Working(s.gate) && k < |s.worker.chain| && k in s.worker.attempts
    requires s.worker.attempts[k].phase in {Starting, Listing, Numbering}
    ensures Ends(s, es, t, k)
  {
    Stay(s);
    es, t := [], s;
    var phase := s.worker.attempts[k].phase;
    if phase == Starting {
      es, t := StartingFinishes(s, k);
    } else if phase == Listing && s.worker.attempts[k].Aborted() {
      ListedMoves(s, k);
      es, t := Then(s, es, t, Listed(k, {}, {}));
    } else {
      ThrowMoves(s, k);
      es, t := Then(s, es, t, Throw(k));
    }
  }

  lemma LateEnds(s: State, k: nat) returns (es: seq<Event>, t: State)
    requires Full(s) && Working(s.gate) && k < |s.worker.chain| && k in s.worker.attempts
    requires s.worker.attempts[k].phase in {Saving, Stamped, Posting, Dropping}
    ensures Ends(s, es, t, k)
  {
    Stay(s);
    es, t := [], s;
    var phase := s.worker.attempts[k].phase;
    if phase == Saving {
      es, t := SavingFails(s, k);
    } else if phase == Dropping {
      DropMovesOn(s, k);
      es, t := Then(s, es, t, Drop(k, true));
    } else if phase == Posting {
      AnswerMoves(s, k);
      es, t := Then(s, es, t, Answer(k, false));
    } else {
      es, t := StampedEnds(s, k);
    }
  }

  /** From any phase the attempt comes to its end. */
  lemma ComesToItsEnd(s: State, k: nat) returns (es: seq<Event>, t: State)
    requires Full(s) && Working(s.gate) && k < |s.worker.chain| && k in s.worker.attempts
    ensures Ends(s, es, t, k)
  {
    var phase := s.worker.attempts[k].phase;
    if phase in {Starting, Listing, Numbering} {
      es, t := EarlyEnds(s, k);
    } else if phase in {Saving, Stamped, Posting, Dropping} {
      es, t := LateEnds(s, k);
    } else {
      Stay(s);
      es, t := [], s;
    }
  }

  lemma StampedEnds(s: State, k: nat) returns (es: seq<Event>, t: State)
    requires Full(s) && Working(s.gate) && Runs(s, k, Stamped)
    ensures Leads(s, es, t) && MovesTo(s, t, k, if s.worker.attempts[k].Aborted() then Failing else Finishing)
  {
    Stay(s);
    SendMoves(s, k);
    es, t := Then(s, [], s, Send(k));
    if !s.worker.attempts[k].Aborted() {
      AnswerMoves(t, k);
      es, t := Then(s, es, t, Answer(k, false));
    }
  }

  /** An attempt that is not doomed catches up or gives way to a fresh one. */
  lemma FromAttempt(s: State, k: nat) returns (es: seq<Event>, t: State)
    requires Full(s) && Working(s.gate) && !CaughtUp(s.worker)
    requires k < |s.worker.chain| && k in s.worker.attempts && !Doomed(s.worker.attempts[k])
    ensures Leads(s, es, t) && Better(t)
  {
    es, t := ComesToItsEnd(s, k);
    var more, u;
    if t.worker.attempts[k].phase == Finishing { more, u := FromFinishing(t, k); }
    else if t.worker.attempts[k].phase == Failing { more, u := FromFailing(t, k); }
    else { more, u := FromSleeping(t, k); }
    Joined(s, es, t, more, u);
    es, t := es + more, u;
  }

  /** A fresh attempt catches up. */
  lemma FromRenewed(s: State, k: nat) returns (es: seq<Event>, t: State)
    requires Full(s) && Working(s.gate) && Renewed(s, k)
    ensures Leads(s, es, t) && CaughtUp(t.worker)
  {
    Stay(s);
    es, t := [], s;
    if s.worker.attempts[k].phase == Starting { es, t := StartingFinishes(s, k); }
    ReturnBetters(t, k);
    es, t := Then(s, es, t, Return(k));
  }

  lemma FromBetter(s: State) returns (es: seq<Event>, t: State)
    requires Full(s) && Working(s.gate) && Better(s)
    ensures Leads(s, es, t) && CaughtUp(t.worker)
  {
    if CaughtUp(s.worker) {
      Stay(s);
      es, t := [], s;
    } else {
      var k :| Renewed(s, k);
      es, t := FromRenewed(s, k);
    }
  }

  lemma CutEnds(s: State, k: nat)
    requires Full(s) && (Runs(s, k, Failing) || Runs(s, k, Sleeping)) && s.worker.attempts[k].cut
    ensures var w := Step(s, if Runs(s, k, Failing) then Catch(k) else Wake(k)).worker;
            w.active.None? && (LastWaits(s.worker.chain) ==> LastWaits(w.chain))
  {
    assert Step(s, if Runs(s, k, Failing) then Catch(k) else Wake(k)).worker == Settle(s.worker, k);
    assert s.worker.active == Some(k) && !s.worker.chain[k].Waiting?;
  }

  /** A doomed attempt ends its link. */
  lemma DoomedEnds(s: State, k: nat) returns (es: seq<Event>, t: State)
    requires Full(s) && Working(s.gate) && k < |s.worker.chain| && k in s.worker.attempts && Doomed(s.worker.attempts[k])
    ensures Leads(s, es, t) && t.worker.active.None?
    ensures LastWaits(s.worker.chain) ==> LastWaits(t.worker.chain)
  {
    es, t := ComesToItsEnd(s, k);
    CutEnds(t, k);
    es, t := Then(s, es, t, if Runs(t, k, Failing) then Catch(k) else Wake(k));
  }

  function FirstWaiting(chain: seq<Link>): (k: nat)
    requires LastWaits(chain)
    ensures k < |chain| && chain[k].Waiting? && forall i :: 0 <= i < k ==> !chain[i].Waiting?
  {
    if chain[0].Waiting? then 0 else 1 + FirstWaiting(chain[1..])
  }

  lemma StartMoves(s: State, k: nat)
    requires Full(s) && Working(s.gate) && !CaughtUp(s.worker) && s.worker.active.None?
    requires LastWaits(s.worker.chain) && k == FirstWaiting(s.worker.chain)
    ensures var t := Step(s, Start(k));
            || Renewed(t, k)
            || (k + 1 < |t.worker.chain| && t.worker == s.worker.(chain := s.worker.chain[k := Settled]))
  {
    assert k == 0 || s.worker.chain[k - 1].Settled?;
    if s.worker.applied < s.worker.chain[k].target {
      assert Renewed(Step(s, Start(k)), k);
    } else {
      assert s.worker.attempts == map[];
      assert s.worker.attempts - {k} == s.worker.attempts;
    }
  }

  /** With no attempt in flight the waiting links start one after the other, until one is behind. */
  lemma {:induction false} FromWaiting(s: State) returns (es: seq<Event>, t: State)
    requires Full(s) && Working(s.gate) && s.worker.active.None? && LastWaits(s.worker.chain)
    ensures Leads(s, es, t) && Better(t)
    decreases |s.worker.chain| - FirstWaiting(s.worker.chain)
  {
    Stay(s);
    es, t := [], s;
    if !CaughtUp(s.worker) {
      var k := FirstWaiting(s.worker.chain);
      StartMoves(s, k);
      es, t := Then(s, es, t, Start(k));
      if !Renewed(t, k) {
        var more, u := FromWaiting(t);
        Joined(s, es, t, more, u);
        es, t := es + more, u;
      }
    }
  }

  lemma FromHope(s: State) returns (es: seq<Event>, t: State)
    requires Full(s) && Working(s.gate) && Hopeful(s.worker)
    ensures Leads(s, es, t) && CaughtUp(t.worker)
  {
    Stay(s);
    es, t := [], s;
    if !CaughtUp(s.worker) {
      if s.worker.active.Some? && !Doomed(s.worker.attempts[s.worker.active.value]) {
        es, t := FromAttempt(s, s.worker.active.value);
      } else {
        if s.worker.active.Some? { es, t := DoomedEnds(s, s.worker.active.value); }
        var more, u := FromWaiting(t);
        Joined(s, es, t, more, u);
        es, t := es + more, u;
      }
      var more, u := FromBetter(t);
      Joined(s, es, t, more, u);
      es, t := es + more, u;
    }
  }

  /**
   From a reachable state with a reader, no stop and an owner, some continuation without a request and without a
   crash catches up with the last request, exactly when the worker has caught up already, or a link still waits,
   or an attempt is in flight that was not cut where it can only end.
   */
  lemma CatchesUpExactly(now: int, es: seq<Event>, s: State)
    requires s == Exec(Init(now), es) && Working(s.gate)
    ensures (exists more :: Unasked(more) && CaughtUp(Exec(s, more).worker)) <==> CaughtUp(s.worker) || Hopeful(s.worker)
  {
    assert Full(s) by { FullRun(now, es); }
    if CaughtUp(s.worker) {
      assert Unasked([]) && Exec(s, []) == s;
    } else if Hopeful(s.worker) {
      var more, t := FromHope(s);
      assert Unasked(more) && CaughtUp(Exec(s, more).worker);
    } else {
      HopelessIsStuck(s);
      forall more | Unasked(more) ensures !CaughtUp(Exec(s, more).worker) { StuckRun(s, more); }
    }
  }

  /** The exception is real: an attempt whose signal was cut ends the worker with its revision not applied. */
  lemma CutWorkIsNotResumed() returns (es: seq<Event>, s: State)
    ensures s == Exec(Init(0), es) && Working(s.gate) && s.gate.confirmed && Stuck(s.worker)
  {
    es, s := CutWorkFails();
    es, s := CronSyncExits.Then(es, s, Catch(0));
  }

  lemma CutWorkFails() returns (es: seq<Event>, s: State)
    ensures s == Exec(Init(0), es) && s.gate == Gate(true, true, false, false)
    ensures s.worker == Worker(1, 0, [Running], map[0 := Pass(1, 5, Failing, false, true, [], 0)], Some(0), 4, 0)
  {
    es, s := LeakReady();
    es, s := CronSyncExits.Then(es, s, Request);
    es, s := CronSyncExits.Then(es, s, Start(0));
    assert s.worker.attempts == map[0 := Pass(1, 5, Starting, false, false, [], 0)];
    es, s := CronSyncExits.Then(es, s, Throw(0));
    assert s.worker.attempts == map[0 := Pass(1, 5, Failing, false, false, [], 0)];
    es, s := CronSyncExits.Then(es, s, Cut(0));
  }
}
