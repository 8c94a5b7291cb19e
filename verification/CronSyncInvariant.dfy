/** What every step of the cron protocol keeps. */
module CronSyncInvariant {
  import opened Common
  import opened CronSync

  // --- the worker -------------------------------------------------------------------------------

  /** Settled links, then at most one running link, then waiting ones. */
  ghost predicate ChainOk(chain: seq<Link>, active: Option<nat>) {
    && (active.Some? ==> active.value < |chain|)
    && (forall k :: 0 <= k < |chain| ==> (chain[k].Running? <==> active == Some(k)))
    && (forall i, j :: 0 <= i < j < |chain| && !chain[j].Waiting? ==> chain[i].Settled?)
  }

  /**
   At most one attempt is in flight, it is the active one, and no attempt that started before the
   last request has been marked applied.
   */
  ghost predicate WorkerInv(w: Worker, tick: nat) {
    && ChainOk(w.chain, w.active)
    && w.attempts.Keys == (if w.active.Some? then {w.active.value} else {})
    && (forall k :: 0 <= k < |w.chain| && w.chain[k].Waiting? ==> w.chain[k].target <= w.requested)
    && w.applied <= w.requested
    && (w.requested > 0 ==> w.requestedAt < tick)
    && (w.requested > 0 && w.applied == w.requested ==> w.requestedAt < w.appliedBegan)
    && (w.active.Some? ==>
          var p := w.attempts[w.active.value];
          0 < p.target <= w.requested && (p.target == w.requested ==> w.requestedAt < p.began))
  }

  /** Link `k` is running, or it is next: the promise before it has settled. */
  ghost predicate Turn(w: Worker, k: nat) {
    k < |w.chain| && (k in w.attempts || (w.chain[k].Waiting? && (k == 0 || w.chain[k - 1].Settled?)))
  }

  lemma TurnIsUnique(w: Worker, tick: nat, k: nat)
    requires WorkerInv(w, tick) && Turn(w, k)
    ensures forall j :: 0 <= j < k ==> w.chain[j].Settled?
    ensures forall j :: k < j < |w.chain| ==> w.chain[j].Waiting?
    ensures w.active.None? || w.active == Some(k)
  {}

  lemma SettleKeeps(w: Worker, tick: nat, k: nat)
    requires WorkerInv(w, tick) && Turn(w, k)
    ensures WorkerInv(Settle(w, k), tick) && Settle(w, k).active.None?
  {
    TurnIsUnique(w, tick, k);
  }

  lemma LoopTopKeeps(w: Worker, g: Gate, tick: nat, k: nat)
    requires WorkerInv(w, tick) && Turn(w, k)
    ensures WorkerInv(LoopTop(w, g, tick, k), tick + 1)
  {
    TurnIsUnique(w, tick, k);
    SettleKeeps(w, tick, k);
  }

  lemma RequestKeeps(w: Worker, tick: nat)
    requires WorkerInv(w, tick)
    ensures WorkerInv(RequestBy(w, tick), tick + 1)
  {}

  lemma StartKeeps(w: Worker, g: Gate, tick: nat, k: nat)
    requires WorkerInv(w, tick)
    ensures WorkerInv(StartLink(w, g, tick, k), tick + 1)
  {
    if Turn(w, k) && k !in w.attempts {
      LoopTopKeeps(w, g, tick, k);
      SettleKeeps(w, tick, k);
    }
  }

  lemma ReturnedKeeps(w: Worker, g: Gate, tick: nat, k: nat)
    requires WorkerInv(w, tick) && k in w.attempts && k < |w.chain|
    ensures WorkerInv(Returned(w, g, tick, k), tick + 1)
  {
    var p := w.attempts[k];
    LoopTopKeeps(if p.Aborted() || p.target != w.requested then w else w.(applied := p.target, appliedBegan := p.began),
                 g, tick, k);
  }

  lemma CaughtKeeps(w: Worker, g: Gate, tick: nat, k: nat)
    requires WorkerInv(w, tick) && k in w.attempts && k < |w.chain|
    ensures WorkerInv(Caught(w, g, tick, k), tick + 1)
  {
    LoopTopKeeps(w, g, tick, k);
    SettleKeeps(w, tick, k);
  }

  /** From `w` to `v` attempts moved on, but none started, ended, or changed target or start. */
  ghost predicate MovedOn(w: Worker, v: Worker) {
    && v == w.(attempts := v.attempts)
    && v.attempts.Keys == w.attempts.Keys
    && (forall k :: k in w.attempts ==> v.attempts[k].target == w.attempts[k].target && v.attempts[k].began == w.attempts[k].began)
  }

  lemma MovedOnKeeps(w: Worker, v: Worker, tick: nat)
    requires WorkerInv(w, tick) && MovedOn(w, v)
    ensures WorkerInv(v, tick + 1)
  {}

  predicate Turns(e: Event) {
    e.Start? || e.Return? || e.Catch? || e.Wake?
  }

  lemma WokenKeeps(w: Worker, g: Gate, tick: nat, k: nat)
    requires WorkerInv(w, tick) && k in w.attempts && k < |w.chain|
    ensures WorkerInv(Woken(w, g, tick, k), tick + 1)
  {
    LoopTopKeeps(w, g, tick, k);
    SettleKeeps(w, tick, k);
  }

  lemma ReturnStep(s: State, k: nat)
    requires WorkerInv(s.worker, s.tick)
    ensures WorkerInv(PassReturn(s, k).worker, s.tick + 1)
  {
    MovedOnKeeps(s.worker, s.worker, s.tick);
    if Runs(s, k, Finishing) { ReturnedKeeps(s.worker, s.gate, s.tick, k); }
  }

  lemma CatchStep(s: State, k: nat)
    requires WorkerInv(s.worker, s.tick)
    ensures WorkerInv(PassCatch(s, k).worker, s.tick + 1)
  {
    MovedOnKeeps(s.worker, s.worker, s.tick);
    if Runs(s, k, Failing) { CaughtKeeps(s.worker, s.gate, s.tick, k); }
  }

  lemma WakeStep(s: State, k: nat)
    requires WorkerInv(s.worker, s.tick)
    ensures WorkerInv(PassWake(s, k).worker, s.tick + 1)
  {
    MovedOnKeeps(s.worker, s.worker, s.tick);
    if Runs(s, k, Sleeping) { WokenKeeps(s.worker, s.gate, s.tick, k); }
  }

  lemma TurnStep(s: State, e: Event)
    requires WorkerInv(s.worker, s.tick) && Turns(e)
    ensures WorkerInv(Act(s, e).worker, s.tick + 1)
  {
    match e
    case Start(k) => StartKeeps(s.worker, s.gate, s.tick, k);
    case Return(k) => ReturnStep(s, k);
    case Catch(k) => CatchStep(s, k);
    case Wake(k) => WakeStep(s, k);
  }

  predicate Requests(e: Event) {
    e.Request? || e.Removed? || e.LeaveLoaded? || e.LeaveConfirm?
  }

  lemma RequestStep(s: State, e: Event)
    requires Requests(e)
    ensures Step(s, e).worker == s.worker || Step(s, e).worker == RequestBy(s.worker, s.tick)
  {}

  predicate EarlyPass(e: Event) { e.Loaded? || e.Listed? || e.Number? }

  predicate LatePass(e: Event) { e.Send? || e.Answer? || e.Drop? }

  predicate Interrupts(e: Event) { e.Throw? || e.Cut? || e.SaveEnd? }

  lemma EarlyMoves(s: State, e: Event)
    requires EarlyPass(e)
    ensures MovedOn(s.worker, Act(s, e).worker)
  {}

  lemma DropMoves(s: State, k: nat, saved: bool)
    ensures MovedOn(s.worker, PassDrop(s, k, saved).worker)
  {}

  lemma LateMoves(s: State, e: Event)
    requires LatePass(e)
    ensures MovedOn(s.worker, Act(s, e).worker)
  {
    if e.Drop? { DropMoves(s, e.link, e.saved); }
  }

  lemma InterruptMoves(s: State, e: Event)
    requires Interrupts(e)
    ensures MovedOn(s.worker, Act(s, e).worker)
  {}

  lemma OtherMoves(s: State, e: Event)
    requires !EarlyPass(e) && !LatePass(e) && !Interrupts(e) && !Requests(e) && !Turns(e) && e != Crash
    ensures MovedOn(s.worker, Act(s, e).worker)
  {}

  lemma MoveStep(s: State, e: Event)
    requires !Requests(e) && !Turns(e) && e != Crash
    ensures MovedOn(s.worker, Step(s, e).worker)
  {
    if EarlyPass(e) { EarlyMoves(s, e); }
    else if LatePass(e) { LateMoves(s, e); }
    else if Interrupts(e) { InterruptMoves(s, e); }
    else { OtherMoves(s, e); }
  }

  lemma WorkerStep(s: State, e: Event)
    requires WorkerInv(s.worker, s.tick)
    ensures WorkerInv(Step(s, e).worker, s.tick + 1)
  {
    if Requests(e) {
      RequestStep(s, e);
      RequestKeeps(s.worker, s.tick);
      MovedOnKeeps(s.worker, s.worker, s.tick);
    } else if Turns(e) {
      TurnStep(s, e);
    } else if e != Crash {
      MoveStep(s, e);
      MovedOnKeeps(s.worker, Step(s, e).worker, s.tick);
    }
  }
}
