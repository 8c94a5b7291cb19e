/** The projection worker gets there: what ends an attempt, when one starts, and from which states it catches up. */
module CronSyncWorker {
  import opened Common
  import opened CronSync
  import opened CronSyncInvariant
  import opened CronSyncFiles
  import opened CronSyncRuns
  import opened CronSyncExits

  // --- attempts and links -----------------------------------------------------------------------

  /** An attempt that began after the last request is for the latest revision. */
  ghost predicate FreshInv(w: Worker, tick: nat) {
    forall k :: k in w.attempts ==>
      w.attempts[k].began < tick && (w.requestedAt < w.attempts[k].began ==> w.attempts[k].target == w.requested)
  }

  /** A last link that still waits does so for the latest revision. */
  predicate LastWaits(chain: seq<Link>) { chain != [] && chain[|chain| - 1].Waiting? }

  ghost predicate LinksInv(w: Worker) { LastWaits(w.chain) ==> w.chain[|w.chain| - 1].target == w.requested }

  ghost predicate WorkInv(w: Worker, tick: nat) { FreshInv(w, tick) && LinksInv(w) }

  lemma LoopTopWork(w: Worker, g: Gate, tick: nat, k: nat)
    requires WorkInv(w, tick) && k < |w.chain| && w.requestedAt <= tick
    ensures WorkInv(LoopTop(w, g, tick, k), tick + 1) && WorkInv(Settle(w, k), tick + 1)
  {}

  lemma RequestWork(w: Worker, tick: nat)
    requires WorkInv(w, tick)
    ensures WorkInv(RequestBy(w, tick), tick + 1)
  {}

  lemma MovedWork(w: Worker, v: Worker, tick: nat)
    requires WorkInv(w, tick) && MovedOn(w, v)
    ensures WorkInv(v, tick + 1)
  {}

  lemma ReturnedWork(w: Worker, g: Gate, tick: nat, k: nat)
    requires WorkInv(w, tick) && k in w.attempts && k < |w.chain| && w.requestedAt <= tick
    ensures WorkInv(Returned(w, g, tick, k), tick + 1)
  {
    var p := w.attempts[k];
    LoopTopWork(w, g, tick, k);
    LoopTopWork(w.(applied := p.target, appliedBegan := p.began), g, tick, k);
  }

  lemma CaughtWork(w: Worker, g: Gate, tick: nat, k: nat)
    requires WorkInv(w, tick) && k in w.attempts && k < |w.chain| && w.requestedAt <= tick
    ensures WorkInv(Caught(w, g, tick, k), tick + 1) && WorkInv(Woken(w, g, tick, k), tick + 1)
  {
    LoopTopWork(w, g, tick, k);
    MovedWork(w, SetPass(w, k, w.attempts[k].(phase := Sleeping)), tick);
  }

  lemma StartWork(s: State, k: nat)
    requires WorkInv(s.worker, s.tick) && s.worker.requestedAt <= s.tick
    ensures WorkInv(StartLink(s.worker, s.gate, s.tick, k), s.tick + 1)
  {
    MovedWork(s.worker, s.worker, s.tick);
    if k < |s.worker.chain| { LoopTopWork(s.worker, s.gate, s.tick, k); }
  }

  lemma ReturnWork(s: State, k: nat)
    requires WorkInv(s.worker, s.tick) && s.worker.requestedAt <= s.tick
    ensures WorkInv(PassReturn(s, k).worker, s.tick + 1)
  {
    MovedWork(s.worker, s.worker, s.tick);
    if Runs(s, k, Finishing) { ReturnedWork(s.worker, s.gate, s.tick, k); }
  }

  lemma CatchWork(s: State, k: nat)
    requires WorkInv(s.worker, s.tick) && s.worker.requestedAt <= s.tick
    ensures WorkInv(PassCatch(s, k).worker, s.tick + 1) && WorkInv(PassWake(s, k).worker, s.tick + 1)
  {
    MovedWork(s.worker, s.worker, s.tick);
    if Runs(s, k, Failing) || Runs(s, k, Sleeping) { CaughtWork(s.worker, s.gate, s.tick, k); }
  }

  lemma TurnWork(s: State, e: Event)
    requires WorkInv(s.worker, s.tick) && Turns(e) && s.worker.requestedAt <= s.tick
    ensures WorkInv(Act(s, e).worker, s.tick + 1)
  {
    match e
    case Start(k) => StartWork(s, k);
    case Return(k) => ReturnWork(s, k);
    case Catch(k) => CatchWork(s, k);
    case Wake(k) => CatchWork(s, k);
  }

  ghost predicate Full(s: State) { Inv(s) && WorkInv(s.worker, s.tick) && s.worker.requestedAt <= s.tick }

  lemma FullStep(s: State, e: Event)
    requires Full(s)
    ensures Full(Step(s, e))
  {
    StepKeeps(s, e);
    if Requests(e) {
      RequestStep(s, e);
      RequestWork(s.worker, s.tick);
      MovedWork(s.worker, s.worker, s.tick);
    } else if Turns(e) {
      TurnWork(s, e);
      TurnKeepsRequest(s, e);
    } else if e != Crash {
      MoveStep(s, e);
      MovedWork(s.worker, Step(s, e).worker, s.tick);
    }
  }

  lemma TurnKeepsRequest(s: State, e: Event)
    requires Turns(e)
    ensures Act(s, e).worker.requestedAt == s.worker.requestedAt && Act(s, e).worker.requested == s.worker.requested
  {}

  lemma {:induction false} FullRun(now: int, es: seq<Event>)
    ensures Full(Exec(Init(now), es))
  {
    if es == [] {
      InitInv(now);
    } else {
      FullRun(now, es[..|es| - 1]);
      FullStep(Exec(Init(now), es[..|es| - 1]), es[|es| - 1]);
    }
  }

  // --- the end of an attempt --------------------------------------------------------------------

  predicate Working(g: Gate) { g.hasReader && !g.stopped && !g.ownerLost }

  /** Link `k` is on a new attempt for the latest revision, begun in the step at `tick`. */
  predicate Restarted(w: Worker, g: Gate, k: nat, tick: nat) {
    && k < |w.chain| && w.chain[k].Running? && w.active == Some(k) && k in w.attempts
    && w.attempts[k] == Pass(w.requested, tick, if g.confirmed then Starting else Finishing, false, false, [], 0)
  }

  /** Link `k` has done what it could, and no attempt is in flight. */
  predicate Over(w: Worker, k: nat) { k < |w.chain| && w.chain[k].Settled? && w.attempts == map[] && w.active.None? }

  /**
   In every run, when an attempt returns: one that was not aborted and began after the last request leaves its
   revision applied and its link settled. Any other one leaves the applied revision as it is, and its link goes
   round again for the latest revision, or settles when the worker may not work.
   */
  lemma ReturnDecides(now: int, es: seq<Event>, s: State, k: nat)
    requires s == Exec(Init(now), es) && Runs(s, k, Finishing)
    ensures var w, p := Step(s, Return(k)).worker, s.worker.attempts[k];
            if !p.Aborted() && s.worker.requestedAt < p.began then w.applied == w.requested == s.worker.requested && Over(w, k)
            else
              && w.applied == s.worker.applied && w.requested == s.worker.requested
              && if Working(s.gate) && w.applied < w.requested then Restarted(w, s.gate, k, s.tick) else Over(w, k)
  {
    assert Full(s) by { FullRun(now, es); }
    OneAttempt(s, k);
  }

  lemma OneAttempt(s: State, k: nat)
    requires Inv(s) && k in s.worker.attempts
    ensures s.worker.active == Some(k) && s.worker.attempts.Keys == {k} && s.worker.attempts - {k} == map[]
  {}

  lemma CatchDecides(s: State, k: nat)
    requires Full(s) && Runs(s, k, Failing)
    ensures var w, p := Caught(s.worker, s.gate, s.tick, k), s.worker.attempts[k];
            && w.applied == s.worker.applied && w.requested == s.worker.requested
            && if p.cut then Over(w, k)
               else if !p.superseded then w == s.worker.(attempts := map[k := p.(phase := Sleeping)])
               else if Working(s.gate) && w.applied < w.requested then Restarted(w, s.gate, k, s.tick)
               else Over(w, k)
  {
    OneAttempt(s, k);
    assert s.worker.attempts[k := s.worker.attempts[k].(phase := Sleeping)] == map[k := s.worker.attempts[k].(phase := Sleeping)];
  }

  lemma WakeDecides(s: State, k: nat)
    requires Full(s) && Runs(s, k, Sleeping)
    ensures var w, p := Woken(s.worker, s.gate, s.tick, k), s.worker.attempts[k];
            && w.applied == s.worker.applied && w.requested == s.worker.requested
            && if !p.cut && Working(s.gate) && w.applied < w.requested then Restarted(w, s.gate, k, s.tick) else Over(w, k)
  {
    OneAttempt(s, k);
  }

  /** When an attempt throws, it ends its link if it was cut, goes round again if a request overtook it, and pauses otherwise. */
  lemma ThrowDecides(now: int, es: seq<Event>, s: State, k: nat)
    requires s == Exec(Init(now), es) && Runs(s, k, Failing)
    ensures var w, p := Step(s, Catch(k)).worker, s.worker.attempts[k];
            && w.applied == s.worker.applied && w.requested == s.worker.requested
            && if p.cut then Over(w, k)
               else if !p.superseded then w == s.worker.(attempts := map[k := p.(phase := Sleeping)])
               else if Working(s.gate) && w.applied < w.requested then Restarted(w, s.gate, k, s.tick)
               else Over(w, k)
  {
    assert Full(s) by { FullRun(now, es); }
    CatchDecides(s, k);
    assert Step(s, Catch(k)).worker == Caught(s.worker, s.gate, s.tick, k);
  }

  /** After the pause it goes round again, unless it was cut. */
  lemma PauseDecides(now: int, es: seq<Event>, s: State, k: nat)
    requires s == Exec(Init(now), es) && Runs(s, k, Sleeping)
    ensures var w, p := Step(s, Wake(k)).worker, s.worker.attempts[k];
            && w.applied == s.worker.applied && w.requested == s.worker.requested
            && if !p.cut && Working(s.gate) && w.applied < w.requested then Restarted(w, s.gate, k, s.tick) else Over(w, k)
  {
    assert Full(s) by { FullRun(now, es); }
    WakeDecides(s, k);
    assert Step(s, Wake(k)).worker == Woken(s.worker, s.gate, s.tick, k);
  }

  /**
   A link gets its turn when the one before it has settled: it starts an attempt if its revision is not applied yet and
   the worker may work, and settles otherwise. Before its turn nothing happens.
   */
  lemma StartDecides(now: int, es: seq<Event>, s: State, k: nat)
    requires s == Exec(Init(now), es) && k < |s.worker.chain|
    ensures var w := Step(s, Start(k)).worker;
            if !s.worker.chain[k].Waiting? || (k > 0 && !s.worker.chain[k - 1].Settled?) then w == s.worker
            else
              && w.applied == s.worker.applied && w.requested == s.worker.requested
              && if Working(s.gate) && s.worker.applied < s.worker.chain[k].target then Restarted(w, s.gate, k, s.tick)
                 else Over(w, k)
  {
    assert Full(s) by { FullRun(now, es); }
    StartGives(s, k);
  }

  lemma StartGives(s: State, k: nat)
    requires Full(s) && k < |s.worker.chain|
    ensures var w := StartLink(s.worker, s.gate, s.tick, k);
            if !s.worker.chain[k].Waiting? || (k > 0 && !s.worker.chain[k - 1].Settled?) then w == s.worker
            else
              && w.applied == s.worker.applied && w.requested == s.worker.requested
              && if Working(s.gate) && s.worker.applied < s.worker.chain[k].target then Restarted(w, s.gate, k, s.tick)
                 else Over(w, k)
  {
    if s.worker.chain[k].Waiting? && (k == 0 || s.worker.chain[k - 1].Settled?) {
      TurnIsUnique(s.worker, s.tick, k);
      assert s.worker.active.None? && s.worker.attempts == map[] && map[] - {k} == s.worker.attempts;
    }
  }

  // --- the start of an attempt ------------------------------------------------------------------

  /** Attempt `k`, if there is one, did not start in the step at `tick`, or it started because the revision is behind. */
  ghost predicate StartOk(v: Worker, g: Gate, k: nat, tick: nat) {
    k in v.attempts && v.attempts[k].began == tick ==> v.applied < v.requested && Working(g) && Restarted(v, g, k, tick)
  }

  lemma NoneStarts(w: Worker, v: Worker, g: Gate, k: nat, tick: nat)
    requires FreshInv(w, tick)
    requires forall j :: j in v.attempts ==> j in w.attempts && v.attempts[j].began == w.attempts[j].began
    ensures StartOk(v, g, k, tick)
  {}

  lemma LoopTopStarts(w: Worker, g: Gate, tick: nat, j: nat, k: nat)
    requires j < |w.chain| && FreshInv(w, tick)
    ensures StartOk(LoopTop(w, g, tick, j), g, k, tick) && StartOk(Settle(w, j), g, k, tick)
  {
    NoneStarts(w, Settle(w, j), g, k, tick);
  }

  lemma StartStarts(s: State, j: nat, k: nat)
    requires FreshInv(s.worker, s.tick)
    ensures StartOk(StartLink(s.worker, s.gate, s.tick, j), s.gate, k, s.tick)
  {
    NoneStarts(s.worker, s.worker, s.gate, k, s.tick);
    if j < |s.worker.chain| { LoopTopStarts(s.worker, s.gate, s.tick, j, k); }
  }

  lemma ReturnStarts(s: State, j: nat, k: nat)
    requires FreshInv(s.worker, s.tick)
    ensures StartOk(PassReturn(s, j).worker, s.gate, k, s.tick)
  {
    NoneStarts(s.worker, s.worker, s.gate, k, s.tick);
    if Runs(s, j, Finishing) {
      var p := s.worker.attempts[j];
      LoopTopStarts(s.worker, s.gate, s.tick, j, k);
      if !p.Aborted() && p.target == s.worker.requested {
        LoopTopSettles(s.worker.(applied := p.target, appliedBegan := p.began), s.gate, s.tick, j);
        NoneStarts(s.worker, PassReturn(s, j).worker, s.gate, k, s.tick);
      }
    }
  }

  lemma LoopTopSettles(w: Worker, g: Gate, tick: nat, j: nat)
    requires j < |w.chain| && w.applied >= w.requested
    ensures LoopTop(w, g, tick, j) == Settle(w, j)
  {}

  lemma CatchStarts(s: State, j: nat, k: nat)
    requires FreshInv(s.worker, s.tick)
    ensures StartOk(PassCatch(s, j).worker, s.gate, k, s.tick) && StartOk(PassWake(s, j).worker, s.gate, k, s.tick)
  {
    NoneStarts(s.worker, s.worker, s.gate, k, s.tick);
    if j < |s.worker.chain| && j in s.worker.attempts {
      LoopTopStarts(s.worker, s.gate, s.tick, j, k);
      NoneStarts(s.worker, SetPass(s.worker, j, s.worker.attempts[j].(phase := Sleeping)), s.gate, k, s.tick);
    }
  }

  lemma TurnStarts(s: State, e: Event, k: nat)
    requires FreshInv(s.worker, s.tick) && Turns(e)
    ensures StartOk(Act(s, e).worker, s.gate, k, s.tick)
  {
    match e
    case Start(j) => StartStarts(s, j, k);
    case Return(j) => ReturnStarts(s, j, k);
    case Catch(j) => CatchStarts(s, j, k);
    case Wake(j) => CatchStarts(s, j, k);
  }

  lemma StepStarts(s: State, e: Event, k: nat)
    requires FreshInv(s.worker, s.tick)
    ensures StartOk(Step(s, e).worker, s.gate, k, s.tick)
  {
    if Requests(e) {
      RequestStep(s, e);
      NoneStarts(s.worker, RequestBy(s.worker, s.tick), s.gate, k, s.tick);
      NoneStarts(s.worker, s.worker, s.gate, k, s.tick);
    } else if Turns(e) {
      TurnStarts(s, e, k);
    } else if e != Crash {
      MoveStep(s, e);
      NoneStarts(s.worker, Step(s, e).worker, s.gate, k, s.tick);
    }
  }

  /** In every run an attempt starts only while the applied revision is behind and the worker may work. */
  lemma StartsOnlyBehind(now: int, es: seq<Event>, s: State, e: Event, k: nat)
    requires s == Exec(Init(now), es) && k in Step(s, e).worker.attempts && Step(s, e).worker.attempts[k].began == s.tick
    ensures var w := Step(s, e).worker; w.applied < w.requested && Working(s.gate) && Restarted(w, s.gate, k, s.tick)
  {
    assert Full(s) by { FullRun(now, es); }
    StepStarts(s, e, k);
  }
}
