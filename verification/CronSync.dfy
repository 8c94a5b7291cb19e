/**
 The cron projection and standby protocol of `cron-sync.ts` as a step machine.

 One step is one stretch of code between two `await`s. The environment picks the steps: hooks, the
 HTTP-driven standby calls, timers, file operations that succeed or fail, aborts, clock changes
 in both directions, and crashes with a restart. A step that the code could not take leaves the
 state as it is, so a run is any sequence of events.

 File operations are serialised by the source (`fileChain`): at most one write is between reading
 the memory copy and the rename. Calls of `enterCronStandby` and `leaveCronStandby` do not overlap.
 */
module CronSync {
  import opened Common

  type JobId = nat

  const MAX_SNAPSHOT_JOBS: nat := 200
  const MAX_PENDING_REMOVALS: nat := 500

  /** A removal not yet accepted by the cloud. `epoch` is history: the store epoch it was recorded under. */
  datatype Removal = Removal(id: JobId, epoch: nat)

  /** The persisted sync file. Epochs are drawn from a counter, as random ids never repeat. */
  datatype File = File(epoch: nat, lastSeq: int, pending: seq<Removal>, standby: bool)

  /** Where a projection attempt waits. */
  datatype Phase =
    | Starting   // loadSyncFile at the top of projectOnce
    | Listing    // reader.list
    | Numbering  // loadSyncFile inside nextSeq, the removals are captured
    | Saving     // saveSyncFile inside nextSeq, the number is drawn
    | Stamped    // nextSeq returned, the request is built next
    | Posting    // the request is on its way
    | Dropping   // accepted, dropReportedRemovals waits for the file
    | Finishing  // projectOnce returned
    | Failing    // projectOnce threw
    | Sleeping   // retry pause

  /** One attempt. `began` is history: the step at which it started. */
  datatype Pass = Pass(target: nat, began: nat, phase: Phase, superseded: bool, cut: bool,
                       removed: seq<Removal>, number: int)
  {
    /** `signal.aborted` of the attempt. */
    predicate Aborted() { superseded || cut }
  }

  /** One `.then` callback on the worker promise chain. */
  datatype Link = Waiting(target: nat) | Running | Settled

  /**
   The latest-state worker. `attempts` holds the attempt of each running link.
   `requestedAt` (step of the last request) and `appliedBegan` (step at which the attempt that was
   last marked applied started) are history.
   */
  datatype Worker = Worker(requested: nat, applied: nat, chain: seq<Link>, attempts: map<nat, Pass>,
                           active: Option<nat>, requestedAt: nat, appliedBegan: nat)

  datatype Owner = ByPass(link: nat) | ByEnter | ByLeave | ByOther
  datatype Write = Write(owner: Owner, file: File)

  /** The sync file on disk, in memory and on its way. `onDisk` is history: every stamp that was on disk. */
  datatype Store = Store(nextEpoch: nat, disk: Option<File>, mem: Option<File>, writing: Option<Write>,
                         onDisk: set<(nat, int)>)

  /** Job ids by kind; `waiting` are removals that wait for the file to load. */
  datatype Jobs = Jobs(mirrored: set<JobId>, foreign: set<JobId>, resetIds: set<JobId>, waiting: set<JobId>)

  datatype Gate = Gate(confirmed: bool, hasReader: bool, ownerLost: bool, stopped: bool)

  /** The standby call in progress and the await it is in. */
  datatype Call =
    | NoCall
    | EnterLoading | EnterSaving | EnterSaved | EnterDisabling
    | LeaveLoading | LeaveRemoving | LeaveSaving | LeaveSaved

  /** A snapshot request that was sent. `durable` is history: its stamp had been on disk by then. */
  datatype Post = Post(epoch: nat, number: int, removed: seq<Removal>, durable: bool)

  /** What left the machine, in order. */
  datatype Sent = Sent(posts: seq<Post>, accepted: set<nat>, runPosts: nat)

  /** `hushed` is history: the active attempt was aborted since standby was recorded. */
  datatype State = State(now: int, tick: nat, gate: Gate, worker: Worker, store: Store, jobs: Jobs,
                         call: Call, hushed: bool, sent: Sent)

  datatype Event =
    | Clock(now: int)
    | Load(readable: bool, writes: bool)
    | SaveBegin(owner: Owner)
    | SaveEnd(ok: bool)
    | Request
    | Start(link: nat)
    | Loaded(link: nat, quit: bool)
    | Listed(link: nat, mirrored: set<JobId>, foreign: set<JobId>)
    | Number(link: nat)
    | Send(link: nat)
    | Answer(link: nat, accepted: bool)
    | Drop(link: nat, saved: bool)
    | Throw(link: nat)
    | Return(link: nat)
    | Catch(link: nat)
    | Wake(link: nat)
    | Cut(link: nat)
    | Stop | Resume | Reader(present: bool) | OwnerGone
    | Removed(id: JobId, guess: bool)
    | NoteWaiting(id: JobId)
    | CommandRemoved(id: JobId)
    | RunReport
    | EnterCall | EnterLoaded | EnterAbort | EnterReturn
    | LeaveCall | LeaveLoaded | LeaveRemove(id: JobId) | LeaveGiveUp | LeaveClear | LeaveConfirm
    | Crash

  function Ids(rs: seq<Removal>): set<JobId> { set r | r in rs :: r.id }

  // --- the projection worker --------------------------------------------------------------------

  function SetPass(w: Worker, k: nat, p: Pass): Worker { w.(attempts := w.attempts[k := p]) }

  /** `activeAttempt?.abort()` */
  function Supersede(w: Worker): Worker {
    if w.active.Some? && w.active.value in w.attempts then
      SetPass(w, w.active.value, w.attempts[w.active.value].(superseded := true))
    else w
  }

  /** `requestCronProjection` */
  function RequestBy(w: Worker, tick: nat): Worker {
    var v := Supersede(w);
    v.(requested := w.requested + 1, requestedAt := tick, chain := v.chain + [Waiting(w.requested + 1)])
  }

  /** The `finally` of an attempt that leaves the loop. */
  function Settle(w: Worker, k: nat): Worker
    requires k < |w.chain|
  {
    w.(chain := w.chain[k := Settled], attempts := w.attempts - {k},
       active := if w.active == Some(k) then None else w.active)
  }

  /** The head of the loop in `projectLatest`: start one more attempt or leave the loop. */
  function LoopTop(w: Worker, g: Gate, tick: nat, k: nat): Worker
    requires k < |w.chain|
  {
    if g.stopped || w.applied >= w.requested || !g.hasReader || g.ownerLost then Settle(w, k)
    else
      var p := Pass(w.requested, tick, if g.confirmed then Starting else Finishing, false, false, [], 0);
      w.(chain := w.chain[k := Running], attempts := w.attempts[k := p], active := Some(k))
  }

  /** A callback runs once the promise before it has settled. */
  function StartLink(w: Worker, g: Gate, tick: nat, k: nat): Worker {
    if k < |w.chain| && w.chain[k].Waiting? && (k == 0 || w.chain[k - 1].Settled?) then
      if !g.stopped && w.applied < w.chain[k].target then LoopTop(w, g, tick, k) else Settle(w, k)
    else w
  }

  /** `projectOnce` returned: only an attempt that was neither aborted nor overtaken counts. */
  function Returned(w: Worker, g: Gate, tick: nat, k: nat): Worker
    requires k in w.attempts && k < |w.chain|
  {
    var p := w.attempts[k];
    if p.Aborted() || p.target != w.requested then LoopTop(w, g, tick, k)
    else LoopTop(w.(applied := p.target, appliedBegan := p.began), g, tick, k)
  }

  /** `projectOnce` threw: a cut attempt ends the loop, a superseded one goes round, others pause. */
  function Caught(w: Worker, g: Gate, tick: nat, k: nat): Worker
    requires k in w.attempts && k < |w.chain|
  {
    var p := w.attempts[k];
    if p.cut then Settle(w, k)
    else if p.superseded then LoopTop(w, g, tick, k)
    else SetPass(w, k, p.(phase := Sleeping))
  }

  /** The retry pause is over, or the signal cut it short. */
  function Woken(w: Worker, g: Gate, tick: nat, k: nat): Worker
    requires k in w.attempts && k < |w.chain|
  {
    if w.attempts[k].cut then Settle(w, k) else LoopTop(w, g, tick, k)
  }

  /** The attempt of link `k` waits in `phase`. */
  predicate Runs(s: State, k: nat, phase: Phase) {
    k < |s.worker.chain| && k in s.worker.attempts && s.worker.attempts[k].phase == phase
  }

  function WithPass(s: State, k: nat, p: Pass): State { s.(worker := SetPass(s.worker, k, p)) }

  function ToPhase(s: State, k: nat, phase: Phase): State
    requires k in s.worker.attempts
  {
    WithPass(s, k, s.worker.attempts[k].(phase := phase))
  }

  function RequestProjection(s: State): State { s.(worker := RequestBy(s.worker, s.tick)) }

  /** `quit` stands for the other early returns: cron off, cloud backoff, no account. */
  function PassLoaded(s: State, k: nat, quit: bool): State {
    if Runs(s, k, Starting) && s.store.mem.Some? then
      ToPhase(s, k, if s.store.mem.value.standby || quit then Finishing else Listing)
    else s
  }

  function PassListed(s: State, k: nat, mirrored: set<JobId>, foreign: set<JobId>): State {
    if Runs(s, k, Listing) && s.store.mem.Some? then
      var p := s.worker.attempts[k];
      if p.Aborted() then ToPhase(s, k, Finishing)
      else
        var pending := s.store.mem.value.pending;
        var taken := if |pending| <= MAX_SNAPSHOT_JOBS then pending else pending[..MAX_SNAPSHOT_JOBS];
        WithPass(s.(jobs := s.jobs.(mirrored := mirrored, foreign := foreign)), k, p.(phase := Numbering, removed := taken))
    else s
  }

  /** The first half of `nextSeq`: draw a number above the last one and not below the clock. */
  function PassNumber(s: State, k: nat): State {
    if Runs(s, k, Numbering) && s.store.mem.Some? then
      var number := Max(s.store.mem.value.lastSeq + 1, s.now);
      WithPass(s.(store := s.store.(mem := Some(s.store.mem.value.(lastSeq := number)))), k,
               s.worker.attempts[k].(phase := Saving, number := number))
    else s
  }

  /** A request with an aborted signal is never sent. The epoch is read here, after the removals. */
  function PassSend(s: State, k: nat): State {
    if Runs(s, k, Stamped) && s.store.mem.Some? then
      var p := s.worker.attempts[k];
      if p.Aborted() then ToPhase(s, k, Failing)
      else
        var epoch := s.store.mem.value.epoch;
        var post := Post(epoch, p.number, p.removed, (epoch, p.number) in s.store.onDisk);
        ToPhase(s.(sent := s.sent.(posts := s.sent.posts + [post])), k, Posting)
    else s
  }

  function PassAnswer(s: State, k: nat, accepted: bool): State {
    if Runs(s, k, Posting) && |s.sent.posts| > 0 then
      if accepted then ToPhase(s.(sent := s.sent.(accepted := s.sent.accepted + {|s.sent.posts| - 1})), k, Dropping)
      else ToPhase(s, k, Finishing)
    else s
  }

  function Without(rs: seq<Removal>, ids: set<JobId>): seq<Removal> {
    if rs == [] then []
    else if rs[0].id in ids then Without(rs[1..], ids)
    else [rs[0]] + Without(rs[1..], ids)
  }

  /** `dropReportedRemovals`: the accepted removals are pending no longer. */
  function PassDrop(s: State, k: nat, saved: bool): State {
    if Runs(s, k, Dropping) && s.store.mem.Some? then
      var file := s.store.mem.value;
      var kept := Without(file.pending, Ids(s.worker.attempts[k].removed));
      ToPhase(s.(store := s.store.(mem := Some(file.(pending := kept)))), k, if saved then Finishing else Failing)
    else s
  }

  /** Any await of `projectOnce` may throw. */
  function PassThrow(s: State, k: nat): State {
    if k in s.worker.attempts && s.worker.attempts[k].phase in {Starting, Listing, Numbering, Posting}
    then ToPhase(s, k, Failing) else s
  }

  function PassReturn(s: State, k: nat): State {
    if Runs(s, k, Finishing) then s.(worker := Returned(s.worker, s.gate, s.tick, k)) else s
  }

  function PassCatch(s: State, k: nat): State {
    if Runs(s, k, Failing) then s.(worker := Caught(s.worker, s.gate, s.tick, k)) else s
  }

  function PassWake(s: State, k: nat): State {
    if Runs(s, k, Sleeping) then
      s.(worker := Woken(s.worker, s.gate, s.tick, k))
    else s
  }

  /** The lifecycle or the reconciliation signal captured by the attempt fires. */
  function PassCut(s: State, k: nat): State {
    if k in s.worker.attempts then WithPass(s, k, s.worker.attempts[k].(cut := true)) else s
  }

  // --- the sync file ----------------------------------------------------------------------------

  /** `loadSyncFile` when nothing is loaded yet; an unreadable file starts a new store epoch. */
  function LoadFile(s: State, readable: bool, writes: bool): State {
    var f := s.store;
    if f.mem.Some? || f.writing.Some? then s
    else if f.disk.Some? && readable then s.(store := f.(mem := f.disk), hushed := true)
    else if !writes then s
    else
      var file := File(f.nextEpoch, 0, [], false);
      s.(store := Store(f.nextEpoch + 1, Some(file), Some(file), None, f.onDisk + {(file.epoch, file.lastSeq)}),
         hushed := true)
  }

  predicate MaySave(s: State, owner: Owner) {
    match owner
    case ByPass(k) => Runs(s, k, Saving)
    case ByEnter => s.call == EnterSaving
    case ByLeave => s.call == LeaveSaving
    case ByOther => true
  }

  /** A queued save gets its turn: the memory copy is serialised now. */
  function BeginSave(s: State, owner: Owner): State {
    if s.store.writing.None? && s.store.mem.Some? && MaySave(s, owner)
    then s.(store := s.store.(writing := Some(Write(owner, s.store.mem.value)))) else s
  }

  /** The rename happened, or the write failed. */
  function Written(s: State, ok: bool): State
    requires s.store.writing.Some?
  {
    var w := s.store.writing.value;
    if ok then s.(store := s.store.(writing := None, disk := Some(w.file),
                                    onDisk := s.store.onDisk + {(w.file.epoch, w.file.lastSeq)}))
    else s.(store := s.store.(writing := None))
  }

  /** The caller goes on after its save, or throws. */
  function EndSave(s: State, ok: bool): State {
    if s.store.writing.None? then s
    else
      var t := Written(s, ok);
      match s.store.writing.value.owner
      case ByPass(k) => if Runs(t, k, Saving) then ToPhase(t, k, if ok then Stamped else Failing) else t
      case ByEnter => t.(call := if ok then EnterSaved else NoCall)
      case ByLeave => t.(call := if ok then LeaveSaved else NoCall)
      case ByOther => t
  }

  // --- removals ---------------------------------------------------------------------------------

  /** The pending list with one more removal: no repeats, only the newest 500 kept. */
  function Recorded(file: File, id: JobId): File {
    if id in Ids(file.pending) then file
    else file.(pending := LastN(file.pending + [Removal(id, file.epoch)], MAX_PENDING_REMOVALS))
  }

  /** `noteRemovedJobId`; without a loaded file it waits for one. */
  function Note(s: State, id: JobId): State {
    if s.store.mem.None? then s.(jobs := s.jobs.(waiting := s.jobs.waiting + {id}))
    else s.(jobs := s.jobs.(mirrored := s.jobs.mirrored - {id}, waiting := s.jobs.waiting - {id}),
            store := s.store.(mem := Some(Recorded(s.store.mem.value, id))))
  }

  predicate IsMirroredEvent(jobs: Jobs, id: JobId, guess: bool) {
    id in jobs.mirrored || (id !in jobs.foreign && guess)
  }

  function RequestIfReader(s: State): State { if s.gate.hasReader then RequestProjection(s) else s }

  /** `onCronChanged` for a `removed` event. */
  function OnRemoved(s: State, id: JobId, guess: bool): State {
    RequestIfReader(if IsMirroredEvent(s.jobs, id, guess) && id !in s.jobs.resetIds then Note(s, id) else s)
  }

  // --- standby ----------------------------------------------------------------------------------

  function OnEnterAbort(s: State): State { s.(worker := Supersede(s.worker), call := EnterDisabling, hushed := true) }

  function OnEnterLoaded(s: State): State {
    if s.call == EnterLoading && s.store.mem.Some? then
      if s.store.mem.value.standby then OnEnterAbort(s)
      else s.(store := s.store.(mem := Some(s.store.mem.value.(standby := true))), call := EnterSaving, hushed := false)
    else s
  }

  function OnLeaveLoaded(s: State): State {
    if s.call == LeaveLoading && s.store.mem.Some? then
      if s.store.mem.value.standby then s.(call := LeaveRemoving)
      else if s.gate.confirmed then s.(call := NoCall)
      else RequestIfReader(s.(gate := s.gate.(confirmed := true), call := NoCall))
    else s
  }

  function OnLeaveClear(s: State): State {
    if s.call == LeaveRemoving && s.store.mem.Some? then
      var f := s.store;
      s.(store := f.(mem := Some(f.mem.value.(standby := false, epoch := f.nextEpoch, pending := [])),
                     nextEpoch := f.nextEpoch + 1),
         call := LeaveSaving)
    else s
  }

  function OnLeaveConfirm(s: State): State {
    if s.call == LeaveSaved then
      RequestIfReader(s.(jobs := s.jobs.(mirrored := {}), gate := s.gate.(confirmed := true), call := NoCall))
    else s
  }

  // --- runs -------------------------------------------------------------------------------------

  /** Everything in process memory is gone; the disk stays. A write in flight did not get renamed. */
  function OnCrash(s: State): State {
    s.(gate := Gate(false, false, false, false), worker := Worker(0, 0, [], map[], None, 0, 0),
       store := s.store.(mem := None, writing := None), jobs := Jobs({}, {}, {}, {}), call := NoCall, hushed := false)
  }

  function Act(s: State, e: Event): State {
    match e
    case Clock(now) => s.(now := now)
    case Load(readable, writes) => LoadFile(s, readable, writes)
    case SaveBegin(owner) => BeginSave(s, owner)
    case SaveEnd(ok) => EndSave(s, ok)
    case Request => RequestProjection(s)
    case Start(k) => s.(worker := StartLink(s.worker, s.gate, s.tick, k))
    case Loaded(k, quit) => PassLoaded(s, k, quit)
    case Listed(k, mirrored, foreign) => PassListed(s, k, mirrored, foreign)
    case Number(k) => PassNumber(s, k)
    case Send(k) => PassSend(s, k)
    case Answer(k, accepted) => PassAnswer(s, k, accepted)
    case Drop(k, saved) => PassDrop(s, k, saved)
    case Throw(k) => PassThrow(s, k)
    case Return(k) => PassReturn(s, k)
    case Catch(k) => PassCatch(s, k)
    case Wake(k) => PassWake(s, k)
    case Cut(k) => PassCut(s, k)
    case Stop => s.(worker := Supersede(s.worker), gate := s.gate.(stopped := true))
    case Resume => s.(gate := s.gate.(stopped := false))
    case Reader(present) => s.(gate := s.gate.(hasReader := present, ownerLost := false))
    case OwnerGone => s.(gate := s.gate.(ownerLost := true))
    case Removed(id, guess) => OnRemoved(s, id, guess)
    case NoteWaiting(id) => if id in s.jobs.waiting && s.store.mem.Some? then Note(s, id) else s
    case CommandRemoved(id) => if id in s.jobs.mirrored then Note(s, id) else s
    case RunReport =>
      if s.store.mem.Some? && !s.store.mem.value.standby
      then s.(sent := s.sent.(runPosts := s.sent.runPosts + 1)) else s
    case EnterCall =>
      if s.call == NoCall then s.(gate := s.gate.(confirmed := false), call := EnterLoading) else s
    case EnterLoaded => OnEnterLoaded(s)
    case EnterAbort => if s.call == EnterSaved then OnEnterAbort(s) else s
    case EnterReturn => if s.call in {EnterLoading, EnterDisabling} then s.(call := NoCall) else s
    case LeaveCall => if s.call == NoCall then s.(call := LeaveLoading) else s
    case LeaveLoaded => OnLeaveLoaded(s)
    case LeaveRemove(id) =>
      if s.call == LeaveRemoving then s.(jobs := s.jobs.(resetIds := s.jobs.resetIds + {id})) else s
    case LeaveGiveUp => if s.call in {LeaveLoading, LeaveRemoving} then s.(call := NoCall) else s
    case LeaveClear => OnLeaveClear(s)
    case LeaveConfirm => OnLeaveConfirm(s)
    case Crash => OnCrash(s)
  }

  function Step(s: State, e: Event): State { Act(s, e).(tick := s.tick + 1) }

  function Exec(s: State, es: seq<Event>): State {
    if es == [] then s else Step(Exec(s, es[..|es| - 1]), es[|es| - 1])
  }

  /** A fresh machine: nothing on disk, nothing in memory. */
  function Init(now: int): State {
    State(now, 0, Gate(false, false, false, false), Worker(0, 0, [], map[], None, 0, 0),
          Store(0, None, None, None, {}), Jobs({}, {}, {}, {}), NoCall, false, Sent([], {}, 0))
  }
}
