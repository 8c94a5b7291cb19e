/** Deadlock freedom, at-most-once dispatch and conservation of the command pipeline, over every run. */
module CommandPipelineRuns {
  import opened Common
  import opened CommandPipeline

  function Slot(p: Option<Work>): seq<Work> { if p.Some? then [p.value] else [] }

  /** The commands enqueued so far, in order. */
  function EnqueuedIn(log: seq<Entry>): seq<Work> {
    if log == [] then [] else
      EnqueuedIn(log[..|log| - 1]) + (if log[|log| - 1].Enqueued? then [log[|log| - 1].work] else [])
  }

  /** The results that have left the slot so far, in order. */
  function LeftIn(log: seq<Entry>): seq<Work> {
    if log == [] then [] else
      LeftIn(log[..|log| - 1]) + (if log[|log| - 1].Left? then [log[|log| - 1].work] else [])
  }

  /** The last dispatch decision a log leaves behind: acks and session losses forget it. */
  function LastDispatch(log: seq<Entry>): Option<nat> {
    if log == [] then None
    else match log[|log| - 1]
         case Dispatched(id) => Some(id)
         case Left(_, fate) => if fate == Cleared then LastDispatch(log[..|log| - 1]) else None
         case Enqueued(_) => LastDispatch(log[..|log| - 1])
  }

  lemma Appended(log: seq<Entry>, e: Entry)
    ensures EnqueuedIn(log + [e]) == EnqueuedIn(log) + (if e.Enqueued? then [e.work] else [])
    ensures LeftIn(log + [e]) == LeftIn(log) + (if e.Left? then [e.work] else [])
    ensures LastDispatch(log + [e]) == match e
                                       case Dispatched(id) => Some(id)
                                       case Left(_, fate) => if fate == Cleared then LastDispatch(log) else None
                                       case Enqueued(_) => LastDispatch(log)
  {
    assert (log + [e])[..|log|] == log;
  }

  /** A dispatch decision never repeats the last one, and a command is enqueued right after its own. */
  ghost predicate EntryOk(before: seq<Entry>, e: Entry) {
    && (e.Dispatched? ==> LastDispatch(before) != Some(e.id))
    && (e.Enqueued? ==> before != [] && before[|before| - 1] == Dispatched(e.work.id))
  }

  ghost predicate LogOk(log: seq<Entry>) {
    forall i :: 0 <= i < |log| ==> EntryOk(log[..i], log[i])
  }

  lemma LogGrows(log: seq<Entry>, e: Entry)
    requires LogOk(log) && EntryOk(log, e)
    ensures LogOk(log + [e])
  {
    forall i | 0 <= i <= |log| ensures EntryOk((log + [e])[..i], (log + [e])[i]) {
      assert (log + [e])[..i] == log[..i];
      assert log[..|log|] == log;
    }
  }

  /** The slot is open exactly when it is empty, and a flush is about what is in it. */
  ghost predicate SlotInv(s: State) {
    && s.canAccept == s.pending.None?
    && (s.ping.Flushing? ==> s.pending == Some(s.ping.work))
  }

  /** Whoever holds a work item while the slot is full has taken one since the loop head. */
  ghost predicate RoomInv(s: State) {
    && |s.queue| <= CAPACITY
    && ((s.ping.Probing? || s.ping.Putting?) && s.pending.Some? && !s.executor.Idle? ==> |s.queue| < CAPACITY)
  }

  /** Everything enqueued is taken or queued, in order; everything handed over has left or is stored, in order. */
  ghost predicate FlowInv(s: State) {
    && EnqueuedIn(s.log) == s.taken + s.queue
    && s.handed == LeftIn(s.log) + Slot(s.pending)
  }

  ghost predicate DispatchInv(s: State) {
    && LogOk(s.log)
    && s.dispatched == s.registry == LastDispatch(s.log)
    && (s.ping.Putting? ==> s.log != [] && s.log[|s.log| - 1] == Dispatched(s.ping.work.id))
  }

  ghost predicate Inv(s: State) { SlotInv(s) && RoomInv(s) && FlowInv(s) && DispatchInv(s) }

  lemma InitInv(session: Option<nat>, token: bool)
    ensures Inv(Init(session, token))
  {}

  /** The state between marking a command as dispatched and putting it. */
  function Marked(s: State, instance: nat, work: Work): State {
    s.(session := Some(instance), dispatched := Some(work.id), registry := Some(work.id), count := s.count + 1,
       log := s.log + [Dispatched(work.id)], ping := Putting(work))
  }

  lemma MarkKeeps(s: State, instance: nat, work: Work)
    requires Inv(s) && s.ping.Probing? && s.dispatched != Some(work.id)
    ensures Inv(Marked(s, instance, work))
  {
    Appended(s.log, Dispatched(work.id));
    LogGrows(s.log, Dispatched(work.id));
  }

  /** An offer that finds room is a mark and a put at once. */
  lemma OfferWithRoom(s: State, instance: nat, command: Option<(nat, bool)>)
    requires command.Some? && s.dispatched != Some(command.value.0) && |s.queue| < CAPACITY
    ensures var work := Work(command.value.0, instance, command.value.1, s.count);
            OnOffer(s, instance, command) == Enqueue(Marked(s, instance, work), work)
  {}

  lemma NoOfferKeeps(s: State, instance: nat)
    requires Inv(s) && s.ping.Probing?
    ensures Inv(s.(session := Some(instance), ping := Top))
  {}

  lemma OfferKeeps(s: State, instance: nat, command: Option<(nat, bool)>)
    requires Inv(s) && s.ping.Probing?
    ensures Inv(OnOffer(s, instance, command))
  {
    if command.None? || s.dispatched == Some(command.value.0) {
      NoOfferKeeps(s, instance);
    } else {
      var work := Work(command.value.0, instance, command.value.1, s.count);
      MarkKeeps(s, instance, work);
      if |s.queue| < CAPACITY {
        PutKeeps(Marked(s, instance, work));
        OfferWithRoom(s, instance, command);
      } else {
        assert OnOffer(s, instance, command) == Marked(s, instance, work);
      }
    }
  }

  lemma PutKeeps(s: State)
    requires Inv(s) && Enabled(s, PutEnds)
    ensures Inv(Enqueue(s, s.ping.work))
  {
    Appended(s.log, Enqueued(s.ping.work));
    LogGrows(s.log, Enqueued(s.ping.work));
  }

  lemma ReleaseKeeps(s: State, fate: Fate)
    requires Inv(s) && s.pending.Some? && !s.ping.Putting?
    ensures var t := Release(s, fate);
            FlowInv(t) && LogOk(t.log) && LastDispatch(t.log) == (if fate == Cleared then LastDispatch(s.log) else None)
  {
    Appended(s.log, Left(s.pending.value, fate));
    LogGrows(s.log, Left(s.pending.value, fate));
  }

  /** What follows an ack differs from the released slot in the dispatch marks and the place in the loop. */
  lemma AckReleases(s: State)
    requires s.ping.Flushing?
    ensures var t, u := OnFlushEnds(s, FlushOk), Release(s, Acked);
            t == u.(dispatched := None, registry := None, ping := t.ping) && (t.ping.Leaving? || t.ping.Top?)
  {}

  lemma AckKeeps(s: State)
    requires Inv(s) && s.ping.Flushing?
    ensures Inv(OnFlushEnds(s, FlushOk))
  {
    ReleaseKeeps(s, Acked);
    AckReleases(s);
  }

  lemma FlushKeeps(s: State, outcome: FlushOutcome)
    requires Inv(s) && s.ping.Flushing?
    ensures Inv(OnFlushEnds(s, outcome))
  {
    match outcome
    case FlushOk => AckKeeps(s);
    case Invalidated => ReleaseKeeps(s, Cleared);
    case Unauthorized => ReleaseKeeps(s, Cleared);
    case FlushFailed =>
  }

  lemma LossKeeps(s: State)
    requires Inv(s) && s.ping.Top? && s.pending.Some?
    ensures Inv(Forget(Release(s, SessionLost)))
  {
    ReleaseKeeps(s, SessionLost);
    var t, u := Forget(Release(s, SessionLost)), Release(s, SessionLost);
    assert t == u.(dispatched := None, registry := None) && t.ping == s.ping;
  }

  lemma HeadKeeps(s: State)
    requires Inv(s) && s.ping.Top?
    ensures Inv(OnLoopHead(s))
  {
    if s.pending.Some? { LossKeeps(s); }
  }

  lemma PingEndKeeps(s: State, result: PingOutcome)
    requires Inv(s) && s.ping.Probing?
    ensures Inv(OnPingEnds(s, result))
  {
    if result.Offer? { OfferKeeps(s, result.instance, result.command); }
  }

  lemma PingKeeps(s: State, e: Event)
    requires Inv(s) && Enabled(s, e) && (e.LoopHead? || e.FlushEnds? || e.PingEnds? || e.PutEnds?)
    ensures Inv(Step(s, e))
  {
    match e
    case LoopHead => HeadKeeps(s);
    case FlushEnds(outcome) => FlushKeeps(s, outcome);
    case PingEnds(result) => PingEndKeeps(s, result);
    case PutEnds => PutKeeps(s);
  }

  lemma TakeKeeps(s: State)
    requires Inv(s) && Enabled(s, Take)
    ensures Inv(Act(s, Take))
  {
    assert s.queue == [s.queue[0]] + s.queue[1..];
    assert s.taken + s.queue == (s.taken + [s.queue[0]]) + s.queue[1..];
  }

  lemma DeliverKeeps(s: State)
    requires Inv(s) && Enabled(s, Deliver)
    ensures Inv(Act(s, Deliver))
  {
    assert s.handed == LeftIn(s.log) + [];
  }

  lemma OthersKeep(s: State, e: Event)
    requires Inv(s) && Enabled(s, e)
    requires e.LeaveEnds? || e.PingCrash? || e.Finish? || e.ExecutorCrash? || e.SessionChange? || e.TokenChange?
    ensures Inv(Step(s, e))
  {}

  lemma StepKeeps(s: State, e: Event)
    requires Inv(s)
    ensures Inv(Step(s, e))
  {
    if Enabled(s, e) {
      if e.LoopHead? || e.FlushEnds? || e.PingEnds? || e.PutEnds? { PingKeeps(s, e); }
      else if e.Take? { TakeKeeps(s); }
      else if e.Deliver? { DeliverKeeps(s); }
      else { OthersKeep(s, e); }
    }
  }

  lemma {:induction false} RunKeeps(session: Option<nat>, token: bool, es: seq<Event>)
    ensures Inv(Exec(Init(session, token), es))
  {
    if es != [] {
      RunKeeps(session, token, es[..|es| - 1]);
      StepKeeps(Exec(Init(session, token), es[..|es| - 1]), es[|es| - 1]);
    }
  }

  // --- deadlock freedom -------------------------------------------------------------------------

  predicate PingBlocked(s: State) { s.ping.Putting? && |s.queue| == CAPACITY }

  predicate ExecutorBlocked(s: State) { s.executor.Delivering? && !s.canAccept }

  /** The two loops never wait for each other. */
  lemma NoDeadlock(session: Option<nat>, token: bool, es: seq<Event>)
    ensures var s := Exec(Init(session, token), es); !(PingBlocked(s) && ExecutorBlocked(s))
  {
    RunKeeps(session, token, es);
  }

  /** A blocked put is released by the executor alone, within three of its own steps. */
  lemma BlockedPutIsReleased(session: Option<nat>, token: bool, es: seq<Event>)
    ensures var s := Exec(Init(session, token), es);
            PingBlocked(s) ==>
              var t := Step(Step(Step(Step(s, Finish), Deliver), Take), PutEnds);
              t.ping.Top? && t.log == s.log + [Enqueued(s.ping.work)]
  {
    RunKeeps(session, token, es);
    var s := Exec(Init(session, token), es);
    if PingBlocked(s) && s.executor.Executing? {
      assert s.pending.None?;
    }
  }

  // --- at most once -----------------------------------------------------------------------------

  /** A successful ack, a session loss at the loop head, or the dispatch of another command. */
  predicate Resets(e: Entry, id: nat) {
    (e.Left? && e.fate != Cleared) || (e.Dispatched? && e.id != id)
  }

  lemma {:induction false} DispatchLasts(log: seq<Entry>, i: nat, j: nat, id: nat)
    requires i <= j <= |log| && LastDispatch(log[..i]) == Some(id)
    requires forall k :: i <= k < j ==> !Resets(log[k], id)
    ensures LastDispatch(log[..j]) == Some(id)
    decreases j
  {
    if i < j {
      DispatchLasts(log, i, j - 1, id);
      assert log[..j] == log[..j - 1] + [log[j - 1]];
      Appended(log[..j - 1], log[j - 1]);
    }
  }

  lemma EnqueuedIsDispatched(log: seq<Entry>, i: nat)
    requires LogOk(log) && i < |log| && log[i].Enqueued?
    ensures i > 0 && log[i - 1] == Dispatched(log[i].work.id)
    ensures LastDispatch(log[..i]) == Some(log[i].work.id) && LastDispatch(log[..i - 1]) != Some(log[i].work.id)
  {
    assert EntryOk(log[..i], log[i]);
    assert EntryOk(log[..i - 1], log[i - 1]);
    assert log[..i] == log[..i - 1] + [log[i - 1]];
    Appended(log[..i - 1], log[i - 1]);
  }

  lemma OnceInLog(log: seq<Entry>, i: nat, j: nat)
    requires LogOk(log) && i < j < |log| && log[i].Enqueued? && log[j].Enqueued? && log[i].work.id == log[j].work.id
    ensures exists k :: i < k < j && Resets(log[k], log[i].work.id)
  {
    EnqueuedIsDispatched(log, i);
    EnqueuedIsDispatched(log, j);
    if forall k :: i < k < j ==> !Resets(log[k], log[i].work.id) {
      DispatchLasts(log, i, j - 1, log[i].work.id);
      assert false;
    }
  }

  /**
   Between two times the same command is put into the queue there is a successful ack, a session
   loss, or the dispatch of another command, also when the loop is restarted from the registry.
   */
  lemma AtMostOnce(session: Option<nat>, token: bool, es: seq<Event>, i: nat, j: nat)
    requires var log := Exec(Init(session, token), es).log;
             i < j < |log| && log[i].Enqueued? && log[j].Enqueued? && log[i].work.id == log[j].work.id
    ensures var log := Exec(Init(session, token), es).log;
            exists k :: i < k < j && Resets(log[k], log[i].work.id)
  {
    RunKeeps(session, token, es);
    OnceInLog(Exec(Init(session, token), es).log, i, j);
  }

  // --- conservation -----------------------------------------------------------------------------

  /**
   Results handed to the store are exactly those that were acked, dropped or cleared, in order, and then
   the one still stored: none is overwritten. Commands are taken in the order they were enqueued.
   */
  lemma NothingIsOverwritten(session: Option<nat>, token: bool, es: seq<Event>)
    ensures var s := Exec(Init(session, token), es);
            && s.handed == LeftIn(s.log) + Slot(s.pending)
            && EnqueuedIn(s.log) == s.taken + s.queue
  {
    RunKeeps(session, token, es);
  }

  /** What a successful ack takes out of the slot is the result that the ping carried. */
  lemma AckRemovesWhatItSent(session: Option<nat>, token: bool, es: seq<Event>)
    ensures var s := Exec(Init(session, token), es);
            s.ping.Flushing? ==>
              var t := Step(s, FlushEnds(FlushOk));
              t.log == s.log + [Left(s.ping.work, Acked)] && t.pending.None? && t.dispatched.None? && t.registry.None?
  {
    RunKeeps(session, token, es);
  }
}
