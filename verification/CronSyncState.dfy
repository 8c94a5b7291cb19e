/**
 `SyncState` of `cron-sync.ts` as the source has it: one shared object whose fields the hooks, the worker
 and the standby calls update in place.

 Each method is one stretch of code between two awaits and is proved to take the step of `CronSync` of the
 same name; `Take` runs them by event, so every run of the object is a run of the step machine.
 */
module CronSyncState {
  import opened Common
  import opened CronSync
  import opened CronSyncRuns

  class SyncState {
    // the plugin's own state
    var confirmedActive: bool
    var hasReader: bool
    var ownerLost: bool
    var lifecycleAborted: bool
    var requestedRevision: nat
    var appliedRevision: nat
    var worker: seq<Link>
    var attempts: map<nat, Pass>
    var activeAttempt: Option<nat>
    var file: Option<File>
    var mirroredIds: set<JobId>
    var foreignIds: set<JobId>
    var resetJobIds: set<JobId>
    var waitingRemovals: set<JobId>
    var call: Call
    // what it runs on
    var now: int
    var disk: Option<File>
    var writing: Option<Write>
    var nextEpoch: nat
    // history
    var tick: nat
    var requestedAt: nat
    var appliedBegan: nat
    var onDisk: set<(nat, int)>
    var hushed: bool
    var sent: Sent

    constructor (time: int)
      ensures Abs() == Init(time)
    {
      confirmedActive, hasReader, ownerLost, lifecycleAborted := false, false, false, false;
      requestedRevision, appliedRevision, worker, attempts, activeAttempt := 0, 0, [], map[], None;
      file, mirroredIds, foreignIds, resetJobIds, waitingRemovals, call := None, {}, {}, {}, {}, NoCall;
      now, disk, writing, nextEpoch := time, None, None, 0;
      tick, requestedAt, appliedBegan, onDisk, hushed, sent := 0, 0, 0, {}, false, Sent([], {}, 0);
    }

    ghost function Abs(): State
      reads this
    {
      State(now, tick, Gate(confirmedActive, hasReader, ownerLost, lifecycleAborted),
            Worker(requestedRevision, appliedRevision, worker, attempts, activeAttempt, requestedAt, appliedBegan),
            Store(nextEpoch, disk, file, writing, onDisk), Jobs(mirroredIds, foreignIds, resetJobIds, waitingRemovals),
            call, hushed, sent)
    }

    predicate InPhase(k: nat, phase: Phase)
      reads this
      ensures InPhase(k, phase) == Runs(Abs(), k, phase)
    {
      k < |worker| && k in attempts && attempts[k].phase == phase
    }

    // --- the worker -----------------------------------------------------------------------------

    method AbortActive()
      modifies `attempts
      ensures Abs() == old(Abs()).(worker := Supersede(old(Abs()).worker))
    {
      if activeAttempt.Some? && activeAttempt.value in attempts {
        attempts := attempts[activeAttempt.value := attempts[activeAttempt.value].(superseded := true)];
      }
    }

    method RequestCronProjection()
      modifies `requestedRevision, `requestedAt, `worker, `attempts
      ensures Abs() == RequestProjection(old(Abs()))
    {
      requestedRevision := requestedRevision + 1;
      AbortActive();
      worker := worker + [Waiting(requestedRevision)];
      requestedAt := tick;
    }

    method LeaveLoop(k: nat)
      requires k < |worker|
      modifies `worker, `attempts, `activeAttempt
      ensures Abs() == old(Abs()).(worker := Settle(old(Abs()).worker, k))
    {
      worker, attempts := worker[k := Settled], attempts - {k};
      if activeAttempt == Some(k) { activeAttempt := None; }
    }

    /** The head of the `while` of `projectLatest`. */
    method NextAttempt(k: nat)
      requires k < |worker|
      modifies `worker, `attempts, `activeAttempt
      ensures Abs() == old(Abs()).(worker := LoopTop(old(Abs()).worker, old(Abs()).gate, old(tick), k))
    {
      if lifecycleAborted || appliedRevision >= requestedRevision || !hasReader || ownerLost {
        LeaveLoop(k);
        return;
      }
      var phase := if confirmedActive then Starting else Finishing;
      attempts := attempts[k := Pass(requestedRevision, tick, phase, false, false, [], 0)];
      worker, activeAttempt := worker[k := Running], Some(k);
    }

    method StartWorker(k: nat)
      modifies `worker, `attempts, `activeAttempt
      ensures Abs() == old(Abs()).(worker := StartLink(old(Abs()).worker, old(Abs()).gate, old(tick), k))
    {
      if k < |worker| && worker[k].Waiting? && (k == 0 || worker[k - 1].Settled?) {
        if !lifecycleAborted && appliedRevision < worker[k].target { NextAttempt(k); } else { LeaveLoop(k); }
      }
    }

    method ProjectOnceReturned(k: nat)
      modifies `worker, `attempts, `activeAttempt, `appliedRevision, `appliedBegan
      ensures Abs() == PassReturn(old(Abs()), k)
    {
      if InPhase(k, Finishing) {
        var attempt := attempts[k];
        if !attempt.Aborted() && attempt.target == requestedRevision {
          appliedRevision, appliedBegan := attempt.target, attempt.began;
        }
        NextAttempt(k);
      }
    }

    method ProjectOnceThrew(k: nat)
      modifies `worker, `attempts, `activeAttempt
      ensures Abs() == PassCatch(old(Abs()), k)
    {
      if InPhase(k, Failing) {
        if attempts[k].cut {
          LeaveLoop(k);
        } else if attempts[k].superseded {
          NextAttempt(k);
        } else {
          attempts := attempts[k := attempts[k].(phase := Sleeping)];
        }
      }
    }

    method RetryPauseOver(k: nat)
      modifies `worker, `attempts, `activeAttempt
      ensures Abs() == PassWake(old(Abs()), k)
    {
      if InPhase(k, Sleeping) {
        if attempts[k].cut { LeaveLoop(k); } else { NextAttempt(k); }
      }
    }

    // --- one projection -------------------------------------------------------------------------

    method SetPhase(k: nat, phase: Phase)
      requires k in attempts
      modifies `attempts
      ensures Abs() == ToPhase(old(Abs()), k, phase)
    {
      attempts := attempts[k := attempts[k].(phase := phase)];
    }

    method ProjectLoaded(k: nat, quit: bool)
      modifies `attempts
      ensures Abs() == PassLoaded(old(Abs()), k, quit)
    {
      if InPhase(k, Starting) && file.Some? { SetPhase(k, if file.value.standby || quit then Finishing else Listing); }
    }

    method ProjectListed(k: nat, mirrored: set<JobId>, foreign: set<JobId>)
      modifies `attempts, `mirroredIds, `foreignIds
      ensures Abs() == PassListed(old(Abs()), k, mirrored, foreign)
    {
      if InPhase(k, Listing) && file.Some? {
        if attempts[k].Aborted() {
          SetPhase(k, Finishing);
          return;
        }
        mirroredIds, foreignIds := mirrored, foreign;
        var pending := file.value.pending;
        var removed := if |pending| <= MAX_SNAPSHOT_JOBS then pending else pending[..MAX_SNAPSHOT_JOBS];
        attempts := attempts[k := attempts[k].(phase := Numbering, removed := removed)];
      }
    }

    /** `nextSeq` up to its save. */
    method NextSeq(k: nat)
      modifies `attempts, `file
      ensures Abs() == PassNumber(old(Abs()), k)
    {
      if InPhase(k, Numbering) && file.Some? {
        var number := Max(file.value.lastSeq + 1, now);
        file := Some(file.value.(lastSeq := number));
        attempts := attempts[k := attempts[k].(phase := Saving, number := number)];
      }
    }

    method SendSnapshot(k: nat)
      modifies `attempts, `sent
      ensures Abs() == PassSend(old(Abs()), k)
    {
      if InPhase(k, Stamped) && file.Some? {
        if attempts[k].Aborted() {
          SetPhase(k, Failing);
          return;
        }
        var stamp := (file.value.epoch, attempts[k].number);
        sent := sent.(posts := sent.posts + [Post(stamp.0, stamp.1, attempts[k].removed, stamp in onDisk)]);
        SetPhase(k, Posting);
      }
    }

    method SnapshotAnswered(k: nat, accepted: bool)
      modifies `attempts, `sent
      ensures Abs() == PassAnswer(old(Abs()), k, accepted)
    {
      if InPhase(k, Posting) && |sent.posts| > 0 {
        if accepted { sent := sent.(accepted := sent.accepted + {|sent.posts| - 1}); }
        SetPhase(k, if accepted then Dropping else Finishing);
      }
    }

    /** `dropReportedRemovals` with its filter over the pending list. */
    method DropReportedRemovals(k: nat, saved: bool)
      modifies `attempts, `file
      ensures Abs() == PassDrop(old(Abs()), k, saved)
    {
      if InPhase(k, Dropping) && file.Some? {
        var reported := Ids(attempts[k].removed);
        var pending, kept, i := file.value.pending, [], 0;
        while i < |pending|
          invariant 0 <= i <= |pending| && Without(pending, reported) == kept + Without(pending[i..], reported)
        {
          if pending[i].id !in reported { kept := kept + [pending[i]]; }
          assert pending[i..][1..] == pending[i + 1..];
          i := i + 1;
        }
        assert pending[i..] == [] && kept + [] == kept;
        file := Some(file.value.(pending := kept));
        SetPhase(k, if saved then Finishing else Failing);
      }
    }

    method ProjectThrows(k: nat)
      modifies `attempts
      ensures Abs() == PassThrow(old(Abs()), k)
    {
      if k in attempts && attempts[k].phase in {Starting, Listing, Numbering, Posting} { SetPhase(k, Failing); }
    }

    method CutAttempt(k: nat)
      modifies `attempts
      ensures Abs() == PassCut(old(Abs()), k)
    {
      if k in attempts { attempts := attempts[k := attempts[k].(cut := true)]; }
    }

    // --- the sync file --------------------------------------------------------------------------

    /** Stands for the random id of a store epoch. */
    method NewEpoch() returns (epoch: nat)
      modifies `nextEpoch
      ensures epoch == old(nextEpoch)
      ensures Abs() == old(Abs()).(store := old(Abs()).store.(nextEpoch := epoch + 1))
    {
      epoch, nextEpoch := nextEpoch, nextEpoch + 1;
    }

    /** An unreadable or missing file: a new store epoch, written at once. */
    method CreateSyncFile()
      modifies `nextEpoch, `disk, `file, `onDisk
      ensures var created := File(old(nextEpoch), 0, [], false);
              Abs() == old(Abs()).(store := Store(old(nextEpoch) + 1, Some(created), Some(created), old(writing),
                                                  old(onDisk) + {(created.epoch, 0)}))
    {
      var epoch := NewEpoch();
      var created := File(epoch, 0, [], false);
      disk, file, onDisk := Some(created), Some(created), onDisk + {(created.epoch, created.lastSeq)};
    }

    method LoadSyncFile(readable: bool, writes: bool)
      modifies `nextEpoch, `disk, `file, `onDisk, `hushed
      ensures Abs() == LoadFile(old(Abs()), readable, writes)
    {
      if file.Some? || writing.Some? { return; }
      if disk.Some? && readable {
        file := disk;
      } else if writes {
        CreateSyncFile();
      } else {
        return;
      }
      hushed := true;
    }

    method SaveTurnComes(owner: Owner)
      modifies `writing
      ensures Abs() == BeginSave(old(Abs()), owner)
    {
      var may := match owner
        case ByPass(k) => InPhase(k, Saving)
        case ByEnter => call == EnterSaving
        case ByLeave => call == LeaveSaving
        case ByOther => true;
      if writing.None? && file.Some? && may { writing := Some(Write(owner, file.value)); }
    }

    method WriteEnded(ok: bool)
      requires writing.Some?
      modifies `writing, `disk, `onDisk
      ensures Abs() == Written(old(Abs()), ok)
    {
      var w := writing.value;
      writing := None;
      if ok { disk, onDisk := Some(w.file), onDisk + {(w.file.epoch, w.file.lastSeq)}; }
    }

    method SaveEnds(ok: bool)
      modifies `writing, `disk, `onDisk, `attempts, `call
      ensures Abs() == EndSave(old(Abs()), ok)
    {
      if writing.None? { return; }
      var owner := writing.value.owner;
      WriteEnded(ok);
      match owner
      case ByPass(k) => if InPhase(k, Saving) { SetPhase(k, if ok then Stamped else Failing); }
      case ByEnter => call := if ok then EnterSaved else NoCall;
      case ByLeave => call := if ok then LeaveSaved else NoCall;
      case ByOther =>
    }

    // --- removals -------------------------------------------------------------------------------

    method NoteRemovedJobId(id: JobId)
      modifies `file, `mirroredIds, `waitingRemovals
      ensures Abs() == Note(old(Abs()), id)
    {
      if file.None? {
        waitingRemovals := waitingRemovals + {id};
        return;
      }
      mirroredIds, waitingRemovals := mirroredIds - {id}, waitingRemovals - {id};
      if id in Ids(file.value.pending) { return; }
      file := Some(file.value.(pending := LastN(file.value.pending + [Removal(id, file.value.epoch)], MAX_PENDING_REMOVALS)));
    }

    method RequestWithReader()
      modifies `requestedRevision, `requestedAt, `worker, `attempts
      ensures Abs() == RequestIfReader(old(Abs()))
    {
      if hasReader { RequestCronProjection(); }
    }

    method OnCronRemoved(id: JobId, guess: bool)
      modifies `requestedRevision, `requestedAt, `worker, `attempts,
               `file, `mirroredIds, `waitingRemovals
      ensures Abs() == OnRemoved(old(Abs()), id, guess)
    {
      var mirrored := id in mirroredIds || (id !in foreignIds && guess);
      if mirrored && id !in resetJobIds { NoteRemovedJobId(id); }
      RequestWithReader();
    }

    // --- standby --------------------------------------------------------------------------------

    method EnterCronStandby()
      modifies `confirmedActive, `call
      ensures Abs() == Act(old(Abs()), EnterCall)
    {
      if call == NoCall { confirmedActive, call := false, EnterLoading; }
    }

    method EnterReturns()
      modifies `call
      ensures Abs() == Act(old(Abs()), EnterReturn)
    {
      if call in {EnterLoading, EnterDisabling} { call := NoCall; }
    }

    method LeaveCronStandby()
      modifies `call
      ensures Abs() == Act(old(Abs()), LeaveCall)
    {
      if call == NoCall { call := LeaveLoading; }
    }

    method RemoveOwnJob(id: JobId)
      modifies `resetJobIds
      ensures Abs() == Act(old(Abs()), LeaveRemove(id))
    {
      if call == LeaveRemoving { resetJobIds := resetJobIds + {id}; }
    }

    method LeaveFails()
      modifies `call
      ensures Abs() == Act(old(Abs()), LeaveGiveUp)
    {
      if call in {LeaveLoading, LeaveRemoving} { call := NoCall; }
    }

    method EnterAbort()
      modifies `attempts, `call, `hushed
      ensures Abs() == OnEnterAbort(old(Abs()))
    {
      AbortActive();
      call, hushed := EnterDisabling, true;
    }

    method EnterLoaded()
      modifies `attempts, `file, `call, `hushed
      ensures Abs() == OnEnterLoaded(old(Abs()))
    {
      if call == EnterLoading && file.Some? {
        if file.value.standby {
          EnterAbort();
        } else {
          file, call, hushed := Some(file.value.(standby := true)), EnterSaving, false;
        }
      }
    }

    method LeaveLoaded()
      modifies `requestedRevision, `requestedAt, `worker, `attempts, `confirmedActive, `call
      ensures Abs() == OnLeaveLoaded(old(Abs()))
    {
      if call == LeaveLoading && file.Some? {
        if file.value.standby {
          call := LeaveRemoving;
        } else {
          call := NoCall;
          if !confirmedActive {
            confirmedActive := true;
            RequestWithReader();
          }
        }
      }
    }

    method LeaveClear()
      modifies `file, `nextEpoch, `call
      ensures Abs() == OnLeaveClear(old(Abs()))
    {
      if call == LeaveRemoving && file.Some? {
        var epoch := NewEpoch();
        file, call := Some(file.value.(standby := false, epoch := epoch, pending := [])), LeaveSaving;
      }
    }

    method ConfirmActive()
      modifies `mirroredIds, `confirmedActive, `call
      ensures Abs() == old(Abs()).(jobs := old(Abs()).jobs.(mirrored := {}), gate := old(Abs()).gate.(confirmed := true),
                                   call := NoCall)
    {
      mirroredIds, confirmedActive, call := {}, true, NoCall;
    }

    method LeaveConfirm()
      modifies `requestedRevision, `requestedAt, `worker, `attempts,
               `mirroredIds, `confirmedActive, `call
      ensures Abs() == OnLeaveConfirm(old(Abs()))
    {
      if call == LeaveSaved {
        ConfirmActive();
        RequestWithReader();
      }
    }

    method ForgetRevisions()
      modifies `requestedRevision, `appliedRevision, `requestedAt, `appliedBegan
      ensures Abs() == old(Abs()).(worker := old(Abs()).worker.(requested := 0, applied := 0, requestedAt := 0, appliedBegan := 0))
    {
      requestedRevision, appliedRevision := 0, 0;
      requestedAt, appliedBegan := 0, 0;
    }

    method ForgetAttempts()
      modifies `worker, `attempts, `activeAttempt
      ensures Abs() == old(Abs()).(worker := old(Abs()).worker.(chain := [], attempts := map[], active := None))
    {
      worker, attempts, activeAttempt := [], map[], None;
    }

    method ForgetJobs()
      modifies `mirroredIds, `foreignIds, `resetJobIds, `waitingRemovals
      ensures Abs() == old(Abs()).(jobs := Jobs({}, {}, {}, {}))
    {
      mirroredIds, foreignIds := {}, {};
      resetJobIds, waitingRemovals := {}, {};
    }

    method ForgetFile()
      modifies `file, `writing
      ensures Abs() == old(Abs()).(store := old(Abs()).store.(mem := None, writing := None))
    {
      file, writing := None, None;
    }

    method ForgetGate()
      modifies `confirmedActive, `hasReader, `ownerLost, `lifecycleAborted
      ensures Abs() == old(Abs()).(gate := Gate(false, false, false, false))
    {
      confirmedActive, hasReader := false, false;
      ownerLost, lifecycleAborted := false, false;
    }

    method ForgetWorker()
      modifies `requestedRevision, `appliedRevision, `requestedAt, `appliedBegan, `worker, `attempts, `activeAttempt
      ensures Abs() == old(Abs()).(worker := Worker(0, 0, [], map[], None, 0, 0))
    {
      ForgetRevisions();
      ForgetAttempts();
    }

    method Crash()
      modifies this
      ensures Abs() == OnCrash(old(Abs()))
    {
      ForgetGate();
      ForgetWorker();
      ForgetJobs();
      ForgetFile();
      call, hushed := NoCall, false;
    }

    // --- any step -------------------------------------------------------------------------------

    predicate IsWorkerEvent(e: Event) { e.Start? || e.Return? || e.Catch? || e.Wake? }

    predicate IsRequestEvent(e: Event) { e.Request? || e.Cut? || e.Throw? }

    predicate IsProjectEvent(e: Event) { e.Loaded? || e.Listed? || e.Number? || e.Send? || e.Answer? || e.Drop? }

    predicate IsEnterEvent(e: Event) { e.EnterCall? || e.EnterLoaded? || e.EnterAbort? || e.EnterReturn? }

    predicate IsLeaveEvent(e: Event) {
      e.LeaveCall? || e.LeaveLoaded? || e.LeaveRemove? || e.LeaveGiveUp? || e.LeaveClear? || e.LeaveConfirm?
    }

    predicate IsStandbyEvent(e: Event) { IsEnterEvent(e) || IsLeaveEvent(e) }

    method WorkerEvent(e: Event)
      requires IsWorkerEvent(e)
      modifies this
      ensures Abs() == Act(old(Abs()), e)
    {
      match e
      case Start(k) => StartWorker(k);
      case Return(k) => ProjectOnceReturned(k);
      case Catch(k) => ProjectOnceThrew(k);
      case Wake(k) => RetryPauseOver(k);
    }

    method RequestEvent(e: Event)
      requires IsRequestEvent(e)
      modifies this
      ensures Abs() == Act(old(Abs()), e)
    {
      match e
      case Request => RequestCronProjection();
      case Cut(k) => CutAttempt(k);
      case Throw(k) => ProjectThrows(k);
    }

    method ProjectEvent(e: Event)
      requires IsProjectEvent(e)
      modifies this
      ensures Abs() == Act(old(Abs()), e)
    {
      match e
      case Loaded(k, quit) => ProjectLoaded(k, quit);
      case Listed(k, mirrored, foreign) => ProjectListed(k, mirrored, foreign);
      case Number(k) => NextSeq(k);
      case Send(k) => SendSnapshot(k);
      case Answer(k, accepted) => SnapshotAnswered(k, accepted);
      case Drop(k, saved) => DropReportedRemovals(k, saved);
    }

    method EnterEvent(e: Event)
      requires IsEnterEvent(e)
      modifies this
      ensures Abs() == Act(old(Abs()), e)
    {
      match e
      case EnterCall => EnterCronStandby();
      case EnterLoaded => EnterLoaded();
      case EnterAbort => if call == EnterSaved { EnterAbort(); }
      case EnterReturn => EnterReturns();
    }

    method LeaveEvent(e: Event)
      requires IsLeaveEvent(e)
      modifies this
      ensures Abs() == Act(old(Abs()), e)
    {
      if e.LeaveLoaded? || e.LeaveConfirm? { LeaveProceeds(e); } else { LeaveBegins(e); }
    }

    method LeaveProceeds(e: Event)
      requires e.LeaveLoaded? || e.LeaveConfirm?
      modifies this
      ensures Abs() == Act(old(Abs()), e)
    {
      match e
      case LeaveLoaded => LeaveLoaded();
      case LeaveConfirm => LeaveConfirm();
    }

    method LeaveBegins(e: Event)
      requires e.LeaveCall? || e.LeaveRemove? || e.LeaveGiveUp? || e.LeaveClear?
      modifies this
      ensures Abs() == Act(old(Abs()), e)
    {
      match e
      case LeaveCall => LeaveCronStandby();
      case LeaveRemove(id) => RemoveOwnJob(id);
      case LeaveGiveUp => LeaveFails();
      case LeaveClear => LeaveClear();
    }

    predicate IsFileEvent(e: Event) { e.Load? || e.SaveBegin? || e.SaveEnd? || e.NoteWaiting? || e.CommandRemoved? || e.Removed? }

    method FileEvent(e: Event)
      requires IsFileEvent(e)
      modifies this
      ensures Abs() == Act(old(Abs()), e)
    {
      match e
      case Load(readable, writes) => LoadSyncFile(readable, writes);
      case SaveBegin(owner) => SaveTurnComes(owner);
      case SaveEnd(ok) => SaveEnds(ok);
      case Removed(id, guess) => OnCronRemoved(id, guess);
      case NoteWaiting(id) => if id in waitingRemovals && file.Some? { NoteRemovedJobId(id); }
      case CommandRemoved(id) => if id in mirroredIds { NoteRemovedJobId(id); }
    }

    method GatewayStops()
      modifies `attempts, `lifecycleAborted
      ensures Abs() == Act(old(Abs()), Stop)
    {
      AbortActive();
      lifecycleAborted := true;
    }

    method GatewayResumes()
      modifies `lifecycleAborted
      ensures Abs() == Act(old(Abs()), Resume)
    {
      lifecycleAborted := false;
    }

    method SetReader(present: bool)
      modifies `hasReader, `ownerLost
      ensures Abs() == Act(old(Abs()), Reader(present))
    {
      hasReader, ownerLost := present, false;
    }

    /** One attempt of `postRuns`. */
    method PostRuns()
      modifies `sent
      ensures Abs() == Act(old(Abs()), RunReport)
    {
      if file.Some? && !file.value.standby { sent := sent.(runPosts := sent.runPosts + 1); }
    }

    method OtherEvent(e: Event)
      requires !IsWorkerEvent(e) && !IsRequestEvent(e) && !IsProjectEvent(e) && !IsStandbyEvent(e) && !IsFileEvent(e)
      modifies this
      ensures Abs() == Act(old(Abs()), e)
    {
      match e
      case Clock(time) => now := time;
      case Stop => GatewayStops();
      case Resume => GatewayResumes();
      case Reader(present) => SetReader(present);
      case OwnerGone => ownerLost := true;
      case RunReport => PostRuns();
      case Crash => Crash();
    }

    method Dispatch(e: Event)
      modifies this
      ensures Abs() == Act(old(Abs()), e)
    {
      if IsWorkerEvent(e) { WorkerEvent(e); }
      else if IsRequestEvent(e) { RequestEvent(e); }
      else if IsProjectEvent(e) { ProjectEvent(e); }
      else if IsEnterEvent(e) { EnterEvent(e); }
      else if IsLeaveEvent(e) { LeaveEvent(e); }
      else if IsFileEvent(e) { FileEvent(e); }
      else { OtherEvent(e); }
    }

    method Take(e: Event)
      modifies this
      ensures Abs() == Step(old(Abs()), e)
    {
      ghost var s := Abs();
      Dispatch(e);
      ghost var t := Abs();
      assert t.tick == s.tick by { ActKeepsTick(s, e); }
      tick := tick + 1;
    }
  }

  lemma ActKeepsTick(s: State, e: Event)
    ensures Act(s, e).tick == s.tick
  {}

  /** Numbers increase under each store epoch. */
  ghost predicate Increasing(posts: seq<Post>) {
    forall i, j :: 0 <= i < j < |posts| && posts[i].epoch == posts[j].epoch ==> posts[i].number < posts[j].number
  }

  lemma DrivenNumbersIncrease(time: int, es: seq<Event>, s: State)
    requires s == Exec(Init(time), es)
    ensures Increasing(s.sent.posts)
  {
    forall i, j | 0 <= i < j < |s.sent.posts| && s.sent.posts[i].epoch == s.sent.posts[j].epoch
      ensures s.sent.posts[i].number < s.sent.posts[j].number
    {
      NumbersIncrease(time, es, i, j);
    }
  }

  lemma DrivenPostsAreClean(time: int, es: seq<Event>, s: State)
    requires s == Exec(Init(time), es) && TightExits(Init(time), es)
    ensures forall i :: 0 <= i < |s.sent.posts| ==> s.sent.posts[i].durable
  {
    forall i | 0 <= i < |s.sent.posts| ensures s.sent.posts[i].durable { PostsAreClean(time, es, i); }
  }

  /**
   A fresh object driven by any sequence of events ends in the state the step machine ends in. So what is
   proved about runs holds of the object's own fields: one attempt at a time, an applied revision that began
   after the last request, increasing numbers, and stamps on disk before they were posted.
   */
  method Drive(time: int, es: seq<Event>) returns (s: SyncState)
    ensures fresh(s) && s.Abs() == Exec(Init(time), es)
    ensures forall i, j :: i in s.attempts && j in s.attempts ==> i == j && s.activeAttempt == Some(i)
    ensures s.appliedRevision <= s.requestedRevision
    ensures s.requestedRevision > 0 && s.appliedRevision == s.requestedRevision ==> s.requestedAt < s.appliedBegan
    ensures Increasing(s.sent.posts)
    ensures TightExits(Init(time), es) ==> forall i :: 0 <= i < |s.sent.posts| ==> s.sent.posts[i].durable
  {
    s := Run(time, es);
    WorkerOverRuns(time, es);
    assert s.Abs().worker == Exec(Init(time), es).worker;
    DrivenNumbersIncrease(time, es, s.Abs());
    if TightExits(Init(time), es) { DrivenPostsAreClean(time, es, s.Abs()); }
  }

  method Run(time: int, es: seq<Event>) returns (s: SyncState)
    ensures fresh(s) && s.Abs() == Exec(Init(time), es)
  {
    s := new SyncState(time);
    var i := 0;
    while i < |es|
      invariant 0 <= i <= |es| && s.Abs() == Exec(Init(time), es[..i])
    {
      s.Take(es[i]);
      assert es[..i + 1][..i] == es[..i];
      i := i + 1;
    }
    assert es[..i] == es;
  }
}
