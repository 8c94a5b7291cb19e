/** The sync file, the numbers drawn from it and the snapshots posted with them. */
module CronSyncFiles {
  import opened Common
  import opened CronSync
  import opened CronSyncInvariant

  /** No id twice, never more than the cap, and every removal was recorded under the file's own epoch. */
  ghost predicate FileOk(f: File) {
    && (forall i, j :: 0 <= i < j < |f.pending| ==> f.pending[i].id != f.pending[j].id)
    && |f.pending| <= MAX_PENDING_REMOVALS
    && (forall i :: 0 <= i < |f.pending| ==> f.pending[i].epoch == f.epoch)
  }

  /** Numbers already posted under the epoch of `f` are not above its counter. */
  ghost predicate Covers(f: File, posts: seq<Post>) {
    forall i :: 0 <= i < |posts| && posts[i].epoch == f.epoch ==> posts[i].number <= f.lastSeq
  }

  ghost predicate Sound(f: File, nextEpoch: nat, posts: seq<Post>) {
    FileOk(f) && f.epoch < nextEpoch && Covers(f, posts)
  }

  /** Disk, write in flight and memory: each is sound, and each is a later state than the one before. */
  ghost predicate StoreInv(f: Store, posts: seq<Post>) {
    && (f.disk.Some? ==> Sound(f.disk.value, f.nextEpoch, posts))
    && (f.mem.Some? ==> Sound(f.mem.value, f.nextEpoch, posts) && f.disk.Some? && f.disk.value.lastSeq <= f.mem.value.lastSeq)
    && (f.writing.Some? ==>
          && f.mem.Some? && Sound(f.writing.value.file, f.nextEpoch, posts)
          && f.disk.value.lastSeq <= f.writing.value.file.lastSeq <= f.mem.value.lastSeq)
  }

  ghost predicate PostsInv(posts: seq<Post>, nextEpoch: nat) {
    && (forall i :: 0 <= i < |posts| ==> posts[i].epoch < nextEpoch)
    && (forall i, j :: 0 <= i < j < |posts| && posts[i].epoch == posts[j].epoch ==> posts[i].number < posts[j].number)
  }

  /** A write in flight belongs to whoever still waits for it. */
  ghost predicate WriteInv(s: State) {
    s.store.writing.Some? && s.store.mem.Some? ==>
      var w := s.store.writing.value;
      && (w.owner.ByPass? ==> Runs(s, w.owner.link, Saving) && w.file.lastSeq == s.store.mem.value.lastSeq)
      && (w.owner.ByEnter? ==> s.call == EnterSaving)
      && (w.owner.ByLeave? ==> s.call == LeaveSaving)
  }

  ghost predicate CallInv(s: State) {
    && (s.store.mem.None? ==> s.call in {NoCall, EnterLoading, LeaveLoading})
    && (s.store.mem.Some? && s.call in {LeaveRemoving, EnterSaving, EnterSaved} ==> s.store.mem.value.standby)
  }

  /** What an attempt has in hand agrees with the file and with what was posted. */
  ghost predicate PassOk(p: Pass, f: Store, sent: Sent, hushed: bool) {
    && (p.phase in {Listing, Numbering, Saving, Stamped, Posting, Dropping} ==> f.mem.Some?)
    && (p.phase in {Saving, Stamped} ==>
          && p.number == f.mem.value.lastSeq
          && (forall i :: 0 <= i < |sent.posts| && sent.posts[i].epoch == f.mem.value.epoch ==> sent.posts[i].number < p.number))
    && (p.phase == Stamped ==> f.disk.Some? && f.disk.value.lastSeq == p.number)
    && (p.phase in {Posting, Dropping} ==> |sent.posts| > 0 && sent.posts[|sent.posts| - 1].removed == p.removed)
    && (p.phase == Dropping ==> |sent.posts| - 1 in sent.accepted)
    && (f.mem.Some? && f.mem.value.standby && hushed && p.phase in {Listing, Numbering, Saving, Stamped} ==> p.Aborted())
  }

  ghost predicate PassesInv(s: State) {
    forall k :: k in s.worker.attempts ==> PassOk(s.worker.attempts[k], s.store, s.sent, s.hushed)
  }

  ghost predicate FilesInv(s: State) {
    && StoreInv(s.store, s.sent.posts) && PostsInv(s.sent.posts, s.store.nextEpoch)
    && WriteInv(s) && CallInv(s) && PassesInv(s)
  }

  ghost predicate Inv(s: State) {
    WorkerInv(s.worker, s.tick) && FilesInv(s)
  }

  lemma InitInv(now: int)
    ensures Inv(Init(now))
  {}

  // --- steps that leave the file and the posts alone ---------------------------------------------

  predicate Idle(phase: Phase) { phase in {Starting, Finishing, Failing, Sleeping} }

  /** Attempts were only aborted, idled, started or ended; a save that is awaited is still awaited. */
  ghost predicate Quiet(s: State, t: State) {
    && t.store == s.store && t.sent == s.sent && t.hushed == s.hushed
    && (forall k :: k in t.worker.attempts ==>
          Idle(t.worker.attempts[k].phase) ||
          (k in s.worker.attempts
           && t.worker.attempts[k].(superseded := false, cut := false) == s.worker.attempts[k].(superseded := false, cut := false)
           && (s.worker.attempts[k].Aborted() ==> t.worker.attempts[k].Aborted())))
    && (forall k :: Runs(s, k, Saving) ==> Runs(t, k, Saving))
  }

  lemma QuietKeeps(s: State, t: State)
    requires FilesInv(s) && Quiet(s, t)
    requires CallInv(t) && (t.call == s.call || s.call !in {EnterSaving, LeaveSaving})
    ensures FilesInv(t)
  {}

  lemma LoopTopIsQuiet(s: State, k: nat, w: Worker)
    requires k < |s.worker.chain| && k in s.worker.attempts ==> Idle(s.worker.attempts[k].phase)
    requires k < |s.worker.chain|
    requires w.attempts == s.worker.attempts && w.chain == s.worker.chain
    ensures Quiet(s, s.(worker := LoopTop(w, s.gate, s.tick, k)))
    ensures Quiet(s, s.(worker := Settle(w, k)))
  {}

  lemma StartIsQuiet(s: State, k: nat)
    requires WorkerInv(s.worker, s.tick)
    ensures Quiet(s, Act(s, Start(k)))
  {
    if k < |s.worker.chain| && (k in s.worker.attempts ==> Idle(s.worker.attempts[k].phase)) { LoopTopIsQuiet(s, k, s.worker); }
  }

  lemma ReturnIsQuiet(s: State, k: nat)
    requires WorkerInv(s.worker, s.tick)
    ensures Quiet(s, PassReturn(s, k))
  {
    if Runs(s, k, Finishing) {
      LoopTopIsQuiet(s, k, s.worker);
      LoopTopIsQuiet(s, k, s.worker.(applied := s.worker.attempts[k].target, appliedBegan := s.worker.attempts[k].began));
    }
  }

  lemma CatchIsQuiet(s: State, k: nat)
    requires WorkerInv(s.worker, s.tick)
    ensures Quiet(s, PassCatch(s, k)) && Quiet(s, PassWake(s, k))
  {
    if Runs(s, k, Failing) || Runs(s, k, Sleeping) { LoopTopIsQuiet(s, k, s.worker); }
  }

  lemma TickIsQuiet(s: State, t: State)
    requires Quiet(s, t)
    ensures Quiet(s, t.(tick := s.tick + 1))
  {}

  lemma TurnIsQuiet(s: State, e: Event)
    requires WorkerInv(s.worker, s.tick) && Turns(e)
    ensures Quiet(s, Step(s, e))
  {
    match e
    case Start(k) => StartIsQuiet(s, k);
    case Return(k) => ReturnIsQuiet(s, k);
    case Catch(k) => CatchIsQuiet(s, k);
    case Wake(k) => CatchIsQuiet(s, k);
    TickIsQuiet(s, Act(s, e));
  }

  predicate Plain(e: Event) {
    e.Clock? || e.Request? || e.Throw? || e.Cut? || e.Stop? || e.Resume? || e.Reader? || e.OwnerGone? || e.EnterCall?
    || e.EnterReturn? || e.LeaveCall? || e.LeaveLoaded? || e.LeaveRemove? || e.LeaveGiveUp? || e.LeaveConfirm?
  }

  predicate TouchesWorker(e: Event) { e.Request? || e.Throw? || e.Cut? || e.Stop? || e.LeaveLoaded? || e.LeaveConfirm? }

  lemma RequestIsQuiet(s: State)
    ensures Quiet(s, RequestProjection(s))
  {}

  lemma ThrowIsQuiet(s: State, k: nat)
    ensures Quiet(s, PassThrow(s, k)) && Quiet(s, PassCut(s, k))
  {}

  lemma StopIsQuiet(s: State)
    ensures Quiet(s, s.(worker := Supersede(s.worker), gate := s.gate.(stopped := true)))
  {}

  lemma LeaveLoadedIsQuiet(s: State)
    requires CallInv(s)
    ensures Quiet(s, OnLeaveLoaded(s)) && CallInv(OnLeaveLoaded(s))
    ensures OnLeaveLoaded(s).call == s.call || s.call == LeaveLoading
  {
    RequestIsQuiet(s.(gate := s.gate.(confirmed := true), call := NoCall));
  }

  lemma LeaveConfirmIsQuiet(s: State)
    requires CallInv(s)
    ensures Quiet(s, OnLeaveConfirm(s)) && CallInv(OnLeaveConfirm(s))
    ensures OnLeaveConfirm(s).call == s.call || s.call == LeaveSaved
  {
    RequestIsQuiet(s.(jobs := s.jobs.(mirrored := {}), gate := s.gate.(confirmed := true), call := NoCall));
  }

  lemma AbortIsQuiet(s: State, e: Event)
    requires (e.Request? || e.Throw? || e.Cut? || e.Stop?) && CallInv(s)
    ensures Quiet(s, Act(s, e)) && CallInv(Act(s, e)) && Act(s, e).call == s.call
  {
    match e
    case Request => RequestIsQuiet(s);
    case Throw(k) => ThrowIsQuiet(s, k);
    case Cut(k) => ThrowIsQuiet(s, k);
    case Stop => StopIsQuiet(s);
  }

  lemma WorkerTouchIsQuiet(s: State, e: Event)
    requires TouchesWorker(e) && CallInv(s)
    ensures Quiet(s, Act(s, e)) && CallInv(Act(s, e))
    ensures Act(s, e).call == s.call || s.call !in {EnterSaving, LeaveSaving}
  {
    match e
    case LeaveLoaded => LeaveLoadedIsQuiet(s);
    case LeaveConfirm => LeaveConfirmIsQuiet(s);
    case _ => AbortIsQuiet(s, e);
  }

  lemma OtherPlainIsQuiet(s: State, e: Event)
    requires Plain(e) && !TouchesWorker(e) && CallInv(s)
    ensures Quiet(s, Act(s, e)) && CallInv(Act(s, e))
    ensures Act(s, e).call == s.call || s.call !in {EnterSaving, LeaveSaving}
  {}

  lemma PlainIsQuiet(s: State, e: Event)
    requires Plain(e) && CallInv(s)
    ensures Quiet(s, Step(s, e)) && CallInv(Step(s, e))
    ensures Step(s, e).call == s.call || s.call !in {EnterSaving, LeaveSaving}
  {
    if TouchesWorker(e) { WorkerTouchIsQuiet(s, e); } else { OtherPlainIsQuiet(s, e); }
    TickIsQuiet(s, Act(s, e));
  }

  // --- steps of the attempt in flight ------------------------------------------------------------

  lemma LoadedKeeps(s: State, k: nat, quit: bool)
    requires FilesInv(s)
    ensures FilesInv(PassLoaded(s, k, quit))
  {}

  lemma ListedKeeps(s: State, k: nat, mirrored: set<JobId>, foreign: set<JobId>)
    requires FilesInv(s)
    ensures FilesInv(PassListed(s, k, mirrored, foreign))
  {
    var t := PassListed(s, k, mirrored, foreign);
    assert t.store == s.store && t.sent == s.sent && t.hushed == s.hushed && t.call == s.call;
    forall j | j in t.worker.attempts ensures PassOk(t.worker.attempts[j], t.store, t.sent, t.hushed) {
      assert PassOk(s.worker.attempts[j], s.store, s.sent, s.hushed);
    }
  }

  /** No other attempt is in flight, so nobody else holds the number that was the last one. */
  lemma NumberKeeps(s: State, k: nat)
    requires Inv(s)
    ensures FilesInv(PassNumber(s, k))
  {}

  /** A number above every earlier one under its epoch, and not above any counter of that epoch. */
  lemma PostKeeps(f: Store, posts: seq<Post>, post: Post)
    requires StoreInv(f, posts) && PostsInv(posts, f.nextEpoch)
    requires f.mem.Some? && f.disk.Some? && post.epoch == f.mem.value.epoch
    requires post.number == f.mem.value.lastSeq == f.disk.value.lastSeq
    requires forall i :: 0 <= i < |posts| && posts[i].epoch == post.epoch ==> posts[i].number < post.number
    ensures StoreInv(f, posts + [post]) && PostsInv(posts + [post], f.nextEpoch)
  {}

  predicate MaySend(s: State, k: nat) {
    Runs(s, k, Stamped) && s.store.mem.Some? && !s.worker.attempts[k].Aborted()
  }

  lemma SentPasses(s: State, k: nat)
    requires Inv(s) && MaySend(s, k)
    ensures PassesInv(PassSend(s, k))
  {
    var t := PassSend(s, k);
    assert t.worker.attempts.Keys == s.worker.attempts.Keys == {k};
    assert t.worker.attempts[k] == s.worker.attempts[k].(phase := Posting);
  }

  lemma SentFile(s: State, k: nat)
    requires Inv(s) && MaySend(s, k)
    ensures StoreInv(s.store, PassSend(s, k).sent.posts) && PostsInv(PassSend(s, k).sent.posts, s.store.nextEpoch)
  {
    assert PassOk(s.worker.attempts[k], s.store, s.sent, s.hushed);
    PostKeeps(s.store, s.sent.posts, PassSend(s, k).sent.posts[|s.sent.posts|]);
  }

  lemma SendKeeps(s: State, k: nat)
    requires Inv(s)
    ensures FilesInv(PassSend(s, k))
  {
    var t := PassSend(s, k);
    if MaySend(s, k) {
      SentPasses(s, k);
      SentFile(s, k);
      assert t.store == s.store && t.call == s.call;
      assert s.worker.attempts.Keys == {k};
    }
  }

  lemma AnswerKeeps(s: State, k: nat, accepted: bool)
    requires FilesInv(s)
    ensures FilesInv(PassAnswer(s, k, accepted))
  {}

  /** `Without` keeps exactly the other removals, in order. */
  lemma {:induction false} WithoutKeeps(rs: seq<Removal>, ids: set<JobId>)
    ensures |Without(rs, ids)| <= |rs|
    ensures forall r :: r in Without(rs, ids) <==> r in rs && r.id !in ids
    ensures (forall i, j :: 0 <= i < j < |rs| ==> rs[i].id != rs[j].id) ==>
              forall i, j :: 0 <= i < j < |Without(rs, ids)| ==> Without(rs, ids)[i].id != Without(rs, ids)[j].id
  {
    if rs != [] {
      WithoutKeeps(rs[1..], ids);
      var rest := Without(rs[1..], ids);
      assert forall j :: 0 <= j < |rest| ==> rest[j] in rs[1..];
    }
  }

  lemma DropKeeps(s: State, k: nat, saved: bool)
    requires FilesInv(s)
    ensures FilesInv(PassDrop(s, k, saved))
  {
    if Runs(s, k, Dropping) && s.store.mem.Some? {
      var rs, ids := s.store.mem.value.pending, Ids(s.worker.attempts[k].removed);
      WithoutKeeps(rs, ids);
      assert forall i :: 0 <= i < |Without(rs, ids)| ==> Without(rs, ids)[i] in rs;
    }
  }

  // --- steps on the file -------------------------------------------------------------------------

  lemma LoadKeeps(s: State, readable: bool, writes: bool)
    requires FilesInv(s)
    ensures FilesInv(LoadFile(s, readable, writes))
  {}

  lemma SaveBeginKeeps(s: State, owner: Owner)
    requires FilesInv(s)
    ensures FilesInv(BeginSave(s, owner))
  {}

  lemma SaveEndPass(s: State, ok: bool)
    requires FilesInv(s) && s.store.writing.Some?
    ensures PassesInv(EndSave(s, ok))
  {
    var t := EndSave(s, ok);
    assert t.sent == s.sent && t.hushed == s.hushed && t.store.mem == s.store.mem;
    forall j | j in t.worker.attempts ensures PassOk(t.worker.attempts[j], t.store, t.sent, t.hushed) {
      assert PassOk(s.worker.attempts[j], s.store, s.sent, s.hushed);
    }
  }

  lemma SaveEndKeeps(s: State, ok: bool)
    requires FilesInv(s)
    ensures FilesInv(EndSave(s, ok))
  {
    if s.store.writing.Some? {
      SaveEndPass(s, ok);
      assert StoreInv(EndSave(s, ok).store, s.sent.posts);
    }
  }

  lemma RecordedOk(f: File, id: JobId)
    requires FileOk(f)
    ensures FileOk(Recorded(f, id))
  {}

  lemma NoteKeeps(s: State, id: JobId)
    requires FilesInv(s)
    ensures FilesInv(Note(s, id))
  {
    if s.store.mem.Some? { RecordedOk(s.store.mem.value, id); }
  }

  /** The attempt that is aborted here is the only one in flight. */
  lemma EnterAbortKeeps(s: State)
    requires Inv(s) && s.call in {EnterSaved, EnterLoading} && s.store.mem.Some?
    ensures FilesInv(OnEnterAbort(s))
  {}

  lemma EnterLoadedKeeps(s: State)
    requires Inv(s)
    ensures FilesInv(OnEnterLoaded(s))
  {
    if s.call == EnterLoading && s.store.mem.Some? { EnterAbortKeeps(s); }
  }

  lemma LeaveClearKeeps(s: State)
    requires Inv(s)
    ensures FilesInv(OnLeaveClear(s))
  {}

  lemma RequestKeeps(s: State)
    requires FilesInv(s)
    ensures FilesInv(RequestIfReader(s))
  {
    RequestIsQuiet(s);
    QuietKeeps(s, RequestProjection(s));
  }

  lemma RemovedKeeps(s: State, id: JobId)
    requires FilesInv(s)
    ensures FilesInv(RequestIfReader(s)) && FilesInv(RequestIfReader(Note(s, id)))
  {
    RequestKeeps(s);
    NoteKeeps(s, id);
    RequestKeeps(Note(s, id));
  }

  predicate OfPass(e: Event) {
    e.Loaded? || e.Listed? || e.Number? || e.Send? || e.Answer? || e.Drop?
  }

  lemma PassStep(s: State, e: Event)
    requires Inv(s) && OfPass(e)
    ensures FilesInv(Act(s, e))
  {
    match e
    case Loaded(k, quit) => LoadedKeeps(s, k, quit);
    case Listed(k, m, f) => ListedKeeps(s, k, m, f);
    case Number(k) => NumberKeeps(s, k);
    case Send(k) => SendKeeps(s, k);
    case Answer(k, a) => AnswerKeeps(s, k, a);
    case Drop(k, saved) => DropKeeps(s, k, saved);
  }

  predicate OfFile(e: Event) {
    e.Load? || e.SaveBegin? || e.SaveEnd? || e.CommandRemoved? || e.NoteWaiting? || e.Removed?
    || e.EnterLoaded? || e.EnterAbort? || e.LeaveClear? || e.RunReport? || e.Crash?
  }

  lemma RemovedStepKeeps(s: State, e: Event)
    requires FilesInv(s) && e.Removed?
    ensures FilesInv(Act(s, e))
  {
    RemovedKeeps(s, e.id);
  }

  lemma NotedStepKeeps(s: State, e: Event)
    requires FilesInv(s) && (e.CommandRemoved? || e.NoteWaiting?)
    ensures FilesInv(Act(s, e))
  {
    NoteKeeps(s, e.id);
  }

  lemma StoreStepKeeps(s: State, e: Event)
    requires FilesInv(s) && (e.Load? || e.SaveBegin? || e.SaveEnd?)
    ensures FilesInv(Act(s, e))
  {
    match e
    case Load(r, w) => LoadKeeps(s, r, w);
    case SaveBegin(o) => SaveBeginKeeps(s, o);
    case SaveEnd(ok) => SaveEndKeeps(s, ok);
  }

  lemma StandbyKeeps(s: State, e: Event)
    requires Inv(s) && (e.EnterLoaded? || e.EnterAbort? || e.LeaveClear?)
    ensures FilesInv(Act(s, e))
  {
    match e
    case EnterLoaded => EnterLoadedKeeps(s);
    case EnterAbort => if s.call == EnterSaved { EnterAbortKeeps(s); }
    case LeaveClear => LeaveClearKeeps(s);
  }

  lemma CrashKeeps(s: State, e: Event)
    requires FilesInv(s) && (e.Crash? || e.RunReport?)
    ensures FilesInv(Act(s, e))
  {}

  lemma FileStep(s: State, e: Event)
    requires Inv(s) && OfFile(e)
    ensures FilesInv(Act(s, e))
  {
    if e.Load? || e.SaveBegin? || e.SaveEnd? { StoreStepKeeps(s, e); }
    else if e.Removed? { RemovedStepKeeps(s, e); }
    else if e.CommandRemoved? || e.NoteWaiting? { NotedStepKeeps(s, e); }
    else if e.Crash? || e.RunReport? { CrashKeeps(s, e); }
    else { StandbyKeeps(s, e); }
  }

  // --- what the groups of steps leave alone ------------------------------------------------------

  lemma TurnFrame(s: State, e: Event)
    requires Turns(e)
    ensures Act(s, e) == s.(worker := Act(s, e).worker)
  {}

  lemma PlainFrame(s: State, e: Event)
    requires Plain(e)
    ensures Act(s, e).store == s.store && Act(s, e).sent == s.sent && Act(s, e).hushed == s.hushed
    ensures Act(s, e).jobs.waiting == s.jobs.waiting && s.jobs.resetIds <= Act(s, e).jobs.resetIds
    ensures s.call in {EnterSaving, EnterSaved} ==> Act(s, e).call == s.call
  {}

  /** Of the file only the counter and, on a drop, the pending list may change. */
  ghost predicate SameFile(f: Option<File>, g: Option<File>) {
    f.Some? == g.Some? && (f.Some? ==> g.value.standby == f.value.standby && g.value.epoch == f.value.epoch)
  }

  lemma PassFrame(s: State, e: Event)
    requires OfPass(e)
    ensures Act(s, e).call == s.call && Act(s, e).hushed == s.hushed && Act(s, e).sent.runPosts == s.sent.runPosts
    ensures Act(s, e).jobs.waiting == s.jobs.waiting && Act(s, e).jobs.resetIds == s.jobs.resetIds
    ensures Act(s, e).store == s.store.(mem := Act(s, e).store.mem) && SameFile(s.store.mem, Act(s, e).store.mem)
    ensures !e.Drop? && s.store.mem.Some? ==> Act(s, e).store.mem.value.pending == s.store.mem.value.pending
    ensures !e.Send? ==> Act(s, e).sent.posts == s.sent.posts
  {}

  lemma TickKeeps(s: State, tick: nat)
    requires FilesInv(s)
    ensures FilesInv(s.(tick := tick))
  {}

  lemma StepKeeps(s: State, e: Event)
    requires Inv(s)
    ensures Inv(Step(s, e))
  {
    WorkerStep(s, e);
    if OfPass(e) || OfFile(e) {
      if OfPass(e) { PassStep(s, e); } else { FileStep(s, e); }
      TickKeeps(Act(s, e), s.tick + 1);
    } else {
      if Plain(e) { PlainIsQuiet(s, e); } else { TurnIsQuiet(s, e); }
      QuietKeeps(s, Step(s, e));
    }
  }
}
