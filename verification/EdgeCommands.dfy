/**
 The objects of the command pipeline as the source has them: the one-slot `CommandResultStore`, the ping
 loop's variables and the executor's, proved to take the steps of `CommandPipeline`.
 */
module EdgeCommands {
  import opened Common
  import opened CommandPipeline
  import opened CommandPipelineRuns

  /** `_pending` and `_can_accept_next` of `edge_commands.py`. */
  class CommandResultStore {
    var pending: Option<Work>
    var canAcceptNext: bool

    constructor ()
      ensures pending == None && canAcceptNext
    {
      pending, canAcceptNext := None, true;
    }

    /** After the wait for `_can_accept_next`. */
    method SetPendingAck(completed: Work)
      requires canAcceptNext
      modifies this
      ensures pending == Some(completed) && !canAcceptNext
    {
      pending := Some(completed);
      canAcceptNext := false;
    }

    method ClearPendingAck()
      modifies this
      ensures pending == None && canAcceptNext
    {
      pending := None;
      canAcceptNext := true;
    }
  }

  class Pipeline {
    const store: CommandResultStore
    var commandQueue: seq<Work>
    var ping: Ping
    var dispatchedCommandId: Option<nat>
    var lastDispatched: Option<nat>
    var session: Option<nat>
    var token: bool
    var executor: Executor
    // history
    var log: seq<Entry>
    var handed: seq<Work>
    var taken: seq<Work>
    var count: nat

    constructor (instance: Option<nat>, present: bool)
      ensures fresh(store) && Abs() == Init(instance, present)
    {
      store := new CommandResultStore();
      commandQueue, ping, dispatchedCommandId, lastDispatched := [], Top, None, None;
      session, token, executor := instance, present, Idle;
      log, handed, taken, count := [], [], [], 0;
    }

    ghost function Abs(): State
      reads this, store
    {
      State(commandQueue, store.pending, store.canAcceptNext, ping, dispatchedCommandId, lastDispatched, session, token,
            executor, log, handed, taken, count)
    }

    /** `clear_pending_ack`; what was in the slot is accounted for in the history. */
    method ReleaseSlot(fate: Fate)
      modifies `log, store
      ensures Abs() == Release(old(Abs()), fate)
    {
      if store.pending.Some? { log := log + [Left(store.pending.value, fate)]; }
      store.ClearPendingAck();
    }

    method ForgetDispatched()
      modifies `dispatchedCommandId, `lastDispatched
      ensures Abs() == Forget(old(Abs()))
    {
      dispatchedCommandId := None;
      lastDispatched := None;
    }

    /** The head of the loop of `run_edge_ping_loop`. */
    method LoopHead()
      modifies this, store
      ensures Abs() == OnLoopHead(old(Abs()))
    {
      if !token { return; }
      if store.pending.Some? {
        if session != Some(store.pending.value.instance) {
          ReleaseSlot(SessionLost);
          ForgetDispatched();
        } else {
          ping := Flushing(store.pending.value);
        }
      } else {
        ping := Probing;
      }
    }

    /** `_flush_command_ack` and what the loop does with its answer. */
    method FlushEnded(outcome: FlushOutcome)
      requires ping.Flushing?
      modifies this, store
      ensures Abs() == OnFlushEnds(old(Abs()), outcome)
    {
      match outcome
      case FlushOk =>
        var disconnect := ping.work.disconnect;
        ForgetDispatched();
        ReleaseSlot(Acked);
        ping := if disconnect then Leaving else Top;
      case Invalidated =>
        session := None;
        ReleaseSlot(Cleared);
        ping := Top;
      case Unauthorized =>
        session, token := None, false;
        ReleaseSlot(Cleared);
        ping := Top;
      case FlushFailed => ping := Top;
    }

    method PutQueued(work: Work)
      modifies `commandQueue, `log, `ping
      ensures Abs() == Enqueue(old(Abs()), work)
    {
      commandQueue := commandQueue + [work];
      log := log + [Enqueued(work)];
      ping := Top;
    }

    /** A ping was answered, perhaps with a command. */
    method Offered(instance: nat, command: Option<(nat, bool)>)
      modifies this
      ensures Abs() == OnOffer(old(Abs()), instance, command)
    {
      session := Some(instance);
      if command.None? || dispatchedCommandId == Some(command.value.0) {
        ping := Top;
        return;
      }
      var work := Work(command.value.0, instance, command.value.1, count);
      lastDispatched := Some(work.id);
      dispatchedCommandId := Some(work.id);
      log := log + [Dispatched(work.id)];
      count := count + 1;
      if |commandQueue| < CAPACITY { PutQueued(work); } else { ping := Putting(work); }
    }

    method PingEnded(result: PingOutcome)
      requires ping.Probing?
      modifies this
      ensures Abs() == OnPingEnds(old(Abs()), result)
    {
      match result
      case Offer(instance, command) => Offered(instance, command);
      case PingInvalidated => session, ping := None, Top;
      case PingUnauthorized => session, token, ping := None, false, Top;
      case PingFailed => ping := Top;
    }

    /** `command_queue.get` of the executor. */
    method TakeWork()
      requires executor.Idle? && commandQueue != []
      modifies `executor, `commandQueue, `taken
      ensures Abs() == Act(old(Abs()), Take)
    {
      var work := commandQueue[0];
      commandQueue := commandQueue[1..];
      executor, taken := Executing(work), taken + [work];
    }

    method DeliverResult()
      requires executor.Delivering? && store.canAcceptNext
      modifies `executor, `handed, store
      ensures Abs() == Act(old(Abs()), Deliver)
    {
      store.SetPendingAck(executor.work);
      handed := handed + [executor.work];
      executor := Idle;
    }

    predicate IsPingEvent(e: Event) { e.LoopHead? || e.FlushEnds? || e.PingEnds? || e.PutEnds? || e.LeaveEnds? || e.PingCrash? }

    predicate MayHappen(e: Event)
      reads this, store
      ensures MayHappen(e) == Enabled(Abs(), e)
    {
      match e
      case LoopHead => ping.Top?
      case FlushEnds(_) => ping.Flushing?
      case PingEnds(_) => ping.Probing?
      case PutEnds => ping.Putting? && |commandQueue| < CAPACITY
      case LeaveEnds => ping.Leaving?
      case PingCrash => !ping.Gone?
      case Take => executor.Idle? && commandQueue != []
      case Finish => executor.Executing?
      case ExecutorCrash => !executor.Idle?
      case Deliver => executor.Delivering? && store.canAcceptNext
      case SessionChange(_) => true
      case TokenChange(_) => true
    }

    method PingEvent(e: Event)
      requires IsPingEvent(e) && MayHappen(e)
      modifies this, store
      ensures Abs() == Act(old(Abs()), e)
    {
      match e
      case LoopHead => LoopHead();
      case FlushEnds(outcome) => FlushEnded(outcome);
      case PingEnds(result) => PingEnded(result);
      case PutEnds => PutQueued(ping.work);
      case LeaveEnds => session, ping := None, Gone;
      case PingCrash => ping, dispatchedCommandId := Top, lastDispatched;
    }

    method OtherEvent(e: Event)
      requires !IsPingEvent(e) && MayHappen(e)
      modifies this, store
      ensures Abs() == Act(old(Abs()), e)
    {
      match e
      case Take => TakeWork();
      case Finish => executor := Delivering(executor.work);
      case ExecutorCrash => executor := Idle;
      case Deliver => DeliverResult();
      case SessionChange(instance) => session := instance;
      case TokenChange(present) => token := present;
    }

    method Run(e: Event)
      modifies this, store
      ensures Abs() == Step(old(Abs()), e)
    {
      if MayHappen(e) {
        if IsPingEvent(e) { PingEvent(e); } else { OtherEvent(e); }
      }
    }
  }

  /**
   Fresh loops driven by any sequence of events never block each other, and every result handed over is
   accounted for or in the slot.
   */
  method Drive(instance: Option<nat>, present: bool, es: seq<Event>) returns (p: Pipeline)
    ensures fresh(p) && fresh(p.store) && p.Abs() == Exec(Init(instance, present), es)
    ensures !(p.ping.Putting? && |p.commandQueue| == CAPACITY && p.executor.Delivering? && !p.store.canAcceptNext)
    ensures p.handed == LeftIn(p.log) + Slot(p.store.pending) && EnqueuedIn(p.log) == p.taken + p.commandQueue
  {
    p := RunAll(instance, present, es);
    NoDeadlock(instance, present, es);
    NothingIsOverwritten(instance, present, es);
  }

  method RunAll(instance: Option<nat>, present: bool, es: seq<Event>) returns (p: Pipeline)
    ensures fresh(p) && fresh(p.store) && p.Abs() == Exec(Init(instance, present), es)
  {
    p := new Pipeline(instance, present);
    var i := 0;
    while i < |es|
      invariant 0 <= i <= |es| && p.Abs() == Exec(Init(instance, present), es[..i])
    {
      p.Run(es[i]);
      assert es[..i + 1][..i] == es[..i];
      i := i + 1;
    }
    assert es[..i] == es;
  }
}
