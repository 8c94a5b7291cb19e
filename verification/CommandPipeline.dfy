/**
 The remote command pipeline: the ping loop offers commands to the executor through a bounded queue,
 and the executor hands results back through a one-slot store that the ping loop acknowledges.

 One step is one stretch of code between two awaits of `run_edge_ping_loop`, `_flush_command_ack` or
 `run_edge_command_executor_loop`. The cloud is adversarial: each ping may bring any command or any
 failure. Both loops may crash at an await and are restarted; the ping loop then takes its last
 dispatched id from the registry.
 */
module CommandPipeline {
  import opened Common

  const CAPACITY: nat := 8

  /** `number` is history: the position of the command among all commands dispatched. */
  datatype Work = Work(id: nat, instance: nat, disconnect: bool, number: nat)

  /** Where the ping loop waits. */
  datatype Ping =
    | Top                    // about to run the loop head
    | Flushing(work: Work)   // the ping that carries the result
    | Probing                // probes, connect and ping without a result
    | Putting(work: Work)    // command_queue.put
    | Leaving                // disconnect notice, then the loop ends
    | Gone

  datatype Executor = Idle | Executing(work: Work) | Delivering(work: Work)

  /** How a stored result left the slot. */
  datatype Fate = Acked | SessionLost | Cleared

  /** History, in order. */
  datatype Entry =
    | Dispatched(id: nat)     // marked as dispatched, the put follows
    | Enqueued(work: Work)
    | Left(work: Work, fate: Fate)

  datatype State = State(
    queue: seq<Work>, pending: Option<Work>, canAccept: bool,
    ping: Ping, dispatched: Option<nat>, registry: Option<nat>, session: Option<nat>, token: bool,
    executor: Executor,
    // history
    log: seq<Entry>, handed: seq<Work>, taken: seq<Work>, count: nat)

  /** What the result-carrying ping came to. */
  datatype FlushOutcome = FlushOk | Invalidated | Unauthorized | FlushFailed

  /** What a ping came to; `instance` is the session it ran under. */
  datatype PingOutcome =
    | Offer(instance: nat, command: Option<(nat, bool)>)
    | PingInvalidated
    | PingUnauthorized
    | PingFailed

  datatype Event =
    | LoopHead
    | FlushEnds(outcome: FlushOutcome)
    | PingEnds(result: PingOutcome)
    | PutEnds
    | LeaveEnds
    | PingCrash
    | Take
    | Finish
    | ExecutorCrash
    | Deliver
    | SessionChange(session: Option<nat>)
    | TokenChange(present: bool)

  // --- the result store -------------------------------------------------------------------------

  /** `clear_pending_ack` */
  function ClearPending(s: State): State { s.(pending := None, canAccept := true) }

  /** The slot is emptied and what was in it is accounted for. */
  function Release(s: State, fate: Fate): State {
    if s.pending.Some? then ClearPending(s).(log := s.log + [Left(s.pending.value, fate)]) else ClearPending(s)
  }

  // --- the ping loop ----------------------------------------------------------------------------

  function Forget(s: State): State { s.(dispatched := None, registry := None) }

  function OnLoopHead(s: State): State {
    if !s.token then s
    else if s.pending.Some? then
      if s.session != Some(s.pending.value.instance) then Forget(Release(s, SessionLost))
      else s.(ping := Flushing(s.pending.value))
    else s.(ping := Probing)
  }

  function OnFlushEnds(s: State, outcome: FlushOutcome): State
    requires s.ping.Flushing?
  {
    match outcome
    case FlushOk =>
      var t := Release(Forget(s), Acked);
      if s.ping.work.disconnect then t.(ping := Leaving) else t.(ping := Top)
    case Invalidated => Release(s, Cleared).(session := None, ping := Top)
    case Unauthorized => Release(s, Cleared).(session := None, token := false, ping := Top)
    case FlushFailed => s.(ping := Top)
  }

  function Enqueue(s: State, work: Work): State {
    s.(queue := s.queue + [work], log := s.log + [Enqueued(work)], ping := Top)
  }

  /** A command not dispatched last is marked first and put then; the put waits on a full queue. */
  function OnOffer(s: State, instance: nat, command: Option<(nat, bool)>): State {
    var t := s.(session := Some(instance));
    if command.None? || s.dispatched == Some(command.value.0) then t.(ping := Top)
    else
      var work := Work(command.value.0, instance, command.value.1, s.count);
      var u := t.(dispatched := Some(work.id), registry := Some(work.id), count := s.count + 1,
                  log := s.log + [Dispatched(work.id)]);
      if |u.queue| < CAPACITY then Enqueue(u, work) else u.(ping := Putting(work))
  }

  function OnPingEnds(s: State, result: PingOutcome): State
    requires s.ping.Probing?
  {
    match result
    case Offer(instance, command) => OnOffer(s, instance, command)
    case PingInvalidated => s.(session := None, ping := Top)
    case PingUnauthorized => s.(session := None, token := false, ping := Top)
    case PingFailed => s.(ping := Top)
  }

  // --- runs -------------------------------------------------------------------------------------

  predicate Enabled(s: State, e: Event) {
    match e
    case LoopHead => s.ping.Top?
    case FlushEnds(_) => s.ping.Flushing?
    case PingEnds(_) => s.ping.Probing?
    case PutEnds => s.ping.Putting? && |s.queue| < CAPACITY
    case LeaveEnds => s.ping.Leaving?
    case PingCrash => !s.ping.Gone?
    case Take => s.executor.Idle? && s.queue != []
    case Finish => s.executor.Executing?
    case ExecutorCrash => !s.executor.Idle?
    case Deliver => s.executor.Delivering? && s.canAccept
    case SessionChange(_) => true
    case TokenChange(_) => true
  }

  function Act(s: State, e: Event): State
    requires Enabled(s, e)
  {
    match e
    case LoopHead => OnLoopHead(s)
    case FlushEnds(outcome) => OnFlushEnds(s, outcome)
    case PingEnds(result) => OnPingEnds(s, result)
    case PutEnds => Enqueue(s, s.ping.work)
    case LeaveEnds => s.(session := None, ping := Gone)
    case PingCrash => s.(ping := Top, dispatched := s.registry)
    case Take => s.(executor := Executing(s.queue[0]), queue := s.queue[1..], taken := s.taken + [s.queue[0]])
    case Finish => s.(executor := Delivering(s.executor.work))
    case ExecutorCrash => s.(executor := Idle)
    case Deliver =>
      s.(pending := Some(s.executor.work), canAccept := false, executor := Idle, handed := s.handed + [s.executor.work])
    case SessionChange(session) => s.(session := session)
    case TokenChange(present) => s.(token := present)
  }

  function Step(s: State, e: Event): State { if Enabled(s, e) then Act(s, e) else s }

  function Exec(s: State, es: seq<Event>): State {
    if es == [] then s else Step(Exec(s, es[..|es| - 1]), es[|es| - 1])
  }

  function Init(session: Option<nat>, token: bool): State {
    State([], None, true, Top, None, None, session, token, Idle, [], [], [], 0)
  }
}
