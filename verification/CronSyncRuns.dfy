/** The cron protocol over whole runs. */
module CronSyncRuns {
  import opened Common
  import opened CronSync
  import opened CronSyncInvariant
  import opened CronSyncFiles

  lemma {:induction false} RunKeeps(s: State, es: seq<Event>)
    requires Inv(s)
    ensures Inv(Exec(s, es))
  {
    if es != [] {
      RunKeeps(s, es[..|es| - 1]);
      StepKeeps(Exec(s, es[..|es| - 1]), es[|es| - 1]);
    }
  }

  // --- the projection worker --------------------------------------------------------------------

  /**
   At most one projection is in flight and it is the one `activeAttempt` names; the applied revision
   never passes the requested one; and when they are equal, the attempt that was marked applied
   began after the last request.
   */
  lemma WorkerOverRuns(now: int, es: seq<Event>)
    ensures var w := Exec(Init(now), es).worker;
            && (forall i, j :: i in w.attempts && j in w.attempts ==> i == j && w.active == Some(i))
            && w.applied <= w.requested
            && (w.requested > 0 && w.applied == w.requested ==> w.requestedAt < w.appliedBegan)
  {
    InitInv(now);
    RunKeeps(Init(now), es);
  }

  /** A revision is marked applied only by an attempt that is not aborted and that no request followed. */
  lemma OnlyFreshAttemptsApply(now: int, es: seq<Event>, e: Event)
    ensures var s := Exec(Init(now), es);
            Step(s, e).worker.applied != s.worker.applied && e != Crash ==>
              && e.Return? && e.link in s.worker.attempts
              && !s.worker.attempts[e.link].Aborted()
              && s.worker.requestedAt < s.worker.attempts[e.link].began
              && Step(s, e).worker.applied == s.worker.requested
  {
    InitInv(now);
    RunKeeps(Init(now), es);
    var s := Exec(Init(now), es);
    if Requests(e) { RequestStep(s, e); }
    else if !Turns(e) && e != Crash { MoveStep(s, e); }
    else if Turns(e) && !e.Return? { OnlyReturnApplies(s, e); }
  }

  lemma OnlyReturnApplies(s: State, e: Event)
    requires e.Start? || e.Catch? || e.Wake?
    ensures Step(s, e).worker.applied == s.worker.applied
  {}

  // --- stamps -----------------------------------------------------------------------------------

  /**
   Numbers posted under one store epoch strictly increase, over crashes, restarts, failed saves, clock
   steps backwards and standby exits.
   */
  lemma NumbersIncrease(now: int, es: seq<Event>, i: nat, j: nat)
    requires i < j < |Exec(Init(now), es).sent.posts|
    requires Exec(Init(now), es).sent.posts[i].epoch == Exec(Init(now), es).sent.posts[j].epoch
    ensures Exec(Init(now), es).sent.posts[i].number < Exec(Init(now), es).sent.posts[j].number
  {
    InitInv(now);
    RunKeeps(Init(now), es);
  }

  /** The stamp was on disk before the post, and no removal is of another epoch. */
  ghost predicate CleanPost(p: Post) {
    p.durable && (forall i :: 0 <= i < |p.removed| ==> p.removed[i].epoch == p.epoch)
  }

  /** An attempt that may still post will post cleanly. */
  ghost predicate CleanPass(k: nat, p: Pass, f: Store) {
    !p.Aborted() && f.mem.Some? ==>
      && (p.phase in {Numbering, Saving, Stamped} ==>
            forall i :: 0 <= i < |p.removed| ==> p.removed[i].epoch == f.mem.value.epoch)
      && (p.phase == Stamped ==> (f.mem.value.epoch, p.number) in f.onDisk)
      && (f.writing.Some? && f.writing.value.owner == ByPass(k) ==> f.writing.value.file.epoch == f.mem.value.epoch)
  }

  ghost predicate CleanPosts(posts: seq<Post>) { forall i :: 0 <= i < |posts| ==> CleanPost(posts[i]) }

  ghost predicate Clean(s: State) {
    CleanPosts(s.sent.posts) && (forall k :: k in s.worker.attempts ==> CleanPass(k, s.worker.attempts[k], s.store))
  }

  /** The standby exit takes effect in this step. */
  predicate Clears(s: State, e: Event) { e.LeaveClear? && s.call == LeaveRemoving && s.store.mem.Some? }

  /**
   An attempt that nobody aborted and that is already past the point where it could still notice a new
   epoch: its number is saved, or its save is under way, or it has captured removals.
   */
  predicate Leaks(k: nat, p: Pass, f: Store) {
    && !p.Aborted()
    && (|| p.phase == Stamped
        || (p.phase == Saving && f.writing.Some? && f.writing.value.owner == ByPass(k))
        || (p.phase in {Numbering, Saving} && p.removed != []))
  }

  ghost predicate Leaky(s: State) { exists k :: k in s.worker.attempts && Leaks(k, s.worker.attempts[k], s.store) }

  /** No standby exit takes effect while an attempt leaks. */
  ghost predicate TightExits(s: State, es: seq<Event>) {
    forall n :: 0 <= n < |es| ==> !(Clears(Exec(s, es[..n]), es[n]) && Leaky(Exec(s, es[..n])))
  }

  lemma CleanQuiet(s: State, t: State)
    requires Clean(s) && Quiet(s, t)
    requires FilesInv(s)
    ensures Clean(t)
  {
    forall k | k in t.worker.attempts ensures CleanPass(k, t.worker.attempts[k], t.store) {
      if k in s.worker.attempts { assert CleanPass(k, s.worker.attempts[k], s.store); }
    }
  }

  /** After a step of attempt `k`, the posts are clean and the attempt still is. */
  ghost predicate CleanAt(t: State, k: nat) {
    CleanPosts(t.sent.posts) && k in t.worker.attempts && CleanPass(k, t.worker.attempts[k], t.store)
  }

  lemma CleanListed(s: State, k: nat, mirrored: set<JobId>, foreign: set<JobId>)
    requires FilesInv(s) && CleanAt(s, k)
    ensures CleanAt(PassListed(s, k, mirrored, foreign), k)
  {
    var t := PassListed(s, k, mirrored, foreign);
    assert t.store == s.store && t.sent == s.sent;
    if s.store.mem.Some? {
      assert FileOk(s.store.mem.value);
      if t != s { assert t.worker.attempts[k].phase in {Finishing, Numbering}; }
    }
  }

  lemma CleanNumber(s: State, k: nat)
    requires FilesInv(s) && CleanAt(s, k)
    ensures CleanAt(PassNumber(s, k), k)
  {}

  lemma CleanSend(s: State, k: nat)
    requires CleanAt(s, k)
    ensures CleanAt(PassSend(s, k), k)
  {
    var t := PassSend(s, k);
    if t.sent.posts != s.sent.posts { assert CleanPost(t.sent.posts[|s.sent.posts|]); }
  }

  lemma CleanOtherPass(s: State, e: Event)
    requires (e.Loaded? || e.Answer? || e.Drop?) && CleanAt(s, e.link)
    ensures CleanAt(Act(s, e), e.link)
  {}

  lemma CleanMoves(s: State, e: Event)
    requires FilesInv(s) && OfPass(e) && CleanAt(s, e.link)
    ensures CleanAt(Act(s, e), e.link)
  {
    match e
    case Listed(k, mirrored, foreign) => CleanListed(s, k, mirrored, foreign);
    case Number(k) => CleanNumber(s, k);
    case Send(k) => CleanSend(s, k);
    case _ => CleanOtherPass(s, e);
  }

  lemma CleanPassStep(s: State, e: Event)
    requires Inv(s) && Clean(s) && OfPass(e)
    ensures Clean(Act(s, e))
  {
    var k, t := e.link, Act(s, e);
    PassMoves(s, e);
    if k in s.worker.attempts {
      assert s.worker.attempts.Keys == {k} == t.worker.attempts.Keys;
      assert CleanPass(k, s.worker.attempts[k], s.store);
      CleanMoves(s, e);
    }
  }

  lemma PassMoves(s: State, e: Event)
    requires OfPass(e)
    ensures MovedOn(s.worker, Act(s, e).worker) && (e.link !in s.worker.attempts ==> Act(s, e) == s)
  {
    if EarlyPass(e) { EarlyMoves(s, e); } else { LateMoves(s, e); }
  }

  lemma CleanSaveBegin(s: State, owner: Owner)
    requires Inv(s) && Clean(s)
    ensures Clean(BeginSave(s, owner))
  {
    var t := BeginSave(s, owner);
    forall k | k in t.worker.attempts ensures CleanPass(k, t.worker.attempts[k], t.store) {
      assert CleanPass(k, s.worker.attempts[k], s.store);
    }
  }

  lemma CleanSaveEnd(s: State, ok: bool)
    requires Inv(s) && Clean(s)
    ensures Clean(EndSave(s, ok))
  {
    var t := EndSave(s, ok);
    forall k | k in t.worker.attempts ensures CleanPass(k, t.worker.attempts[k], t.store) {
      assert CleanPass(k, s.worker.attempts[k], s.store);
      assert t.store.mem == s.store.mem && s.store.onDisk <= t.store.onDisk;
      if t != s && t.worker.attempts[k] != s.worker.attempts[k] {
        assert s.store.writing.value.owner == ByPass(k) && Runs(s, k, Saving);
      }
    }
  }

  predicate Notes(e: Event) { e.Removed? || e.NoteWaiting? || e.CommandRemoved? }

  predicate OfStandby(e: Event) { e.EnterLoaded? || e.EnterAbort? || e.LeaveClear? }

  lemma CleanEnter(s: State, e: Event)
    requires Clean(s) && (e.EnterLoaded? || e.EnterAbort?)
    ensures Clean(Act(s, e))
  {
    var t := Act(s, e);
    forall k | k in t.worker.attempts ensures CleanPass(k, t.worker.attempts[k], t.store) {
      assert CleanPass(k, s.worker.attempts[k], s.store);
    }
  }

  /** A new epoch finds no attempt that would carry something of the old one into it. */
  lemma CleanClear(s: State)
    requires Inv(s) && Clean(s) && !(Clears(s, LeaveClear) && Leaky(s))
    ensures Clean(OnLeaveClear(s))
  {
    var t := OnLeaveClear(s);
    forall k | k in t.worker.attempts ensures CleanPass(k, t.worker.attempts[k], t.store) {
      assert CleanPass(k, s.worker.attempts[k], s.store);
      assert Clears(s, LeaveClear) ==> !Leaks(k, s.worker.attempts[k], s.store);
    }
  }

  lemma CleanNote(s: State, id: JobId)
    requires Clean(s)
    ensures Clean(Note(s, id))
  {
    var t := Note(s, id);
    forall k | k in t.worker.attempts ensures CleanPass(k, t.worker.attempts[k], t.store) {
      assert CleanPass(k, s.worker.attempts[k], s.store);
    }
  }

  lemma CleanRequest(s: State)
    requires FilesInv(s) && Clean(s)
    ensures Clean(RequestIfReader(s))
  {
    RequestIsQuiet(s);
    CleanQuiet(s, RequestProjection(s));
  }

  lemma CleanRemoved(s: State, id: JobId, guess: bool)
    requires FilesInv(s) && Clean(s)
    ensures Clean(OnRemoved(s, id, guess))
  {
    CleanNote(s, id);
    NoteKeeps(s, id);
    CleanRequest(s);
    CleanRequest(Note(s, id));
  }

  lemma CleanNotes(s: State, e: Event)
    requires FilesInv(s) && Clean(s) && Notes(e)
    ensures Clean(Act(s, e))
  {
    CleanNote(s, e.id);
    if e.Removed? { CleanRemoved(s, e.id, e.guess); }
  }

  lemma CleanReload(s: State, e: Event)
    requires Inv(s) && Clean(s) && (e.Load? || e.RunReport? || e.Crash?)
    ensures Clean(Act(s, e))
  {
    var t := Act(s, e);
    forall k | k in t.worker.attempts ensures CleanPass(k, t.worker.attempts[k], t.store) {
      assert CleanPass(k, s.worker.attempts[k], s.store);
      assert PassOk(s.worker.attempts[k], s.store, s.sent, s.hushed);
    }
  }

  lemma CleanFileStep(s: State, e: Event)
    requires Inv(s) && Clean(s) && OfFile(e) && !(Clears(s, e) && Leaky(s))
    ensures Clean(Act(s, e))
  {
    if e.SaveBegin? { CleanSaveBegin(s, e.owner); }
    else if e.SaveEnd? { CleanSaveEnd(s, e.ok); }
    else if e.LeaveClear? { CleanClear(s); }
    else if OfStandby(e) { CleanEnter(s, e); }
    else if Notes(e) { CleanNotes(s, e); }
    else { CleanReload(s, e); }
  }

  lemma CleanStep(s: State, e: Event)
    requires Inv(s) && Clean(s) && !(Clears(s, e) && Leaky(s))
    ensures Clean(Step(s, e))
  {
    if OfPass(e) { CleanPassStep(s, e); }
    else if OfFile(e) { CleanFileStep(s, e); }
    else {
      if Plain(e) { PlainIsQuiet(s, e); } else { TurnIsQuiet(s, e); }
      CleanQuiet(s, Step(s, e));
    }
  }

  lemma TightLess(s: State, es: seq<Event>)
    requires es != [] && TightExits(s, es)
    ensures TightExits(s, es[..|es| - 1])
    ensures !(Clears(Exec(s, es[..|es| - 1]), es[|es| - 1]) && Leaky(Exec(s, es[..|es| - 1])))
  {
    var before := es[..|es| - 1];
    forall n | 0 <= n < |before| ensures !(Clears(Exec(s, before[..n]), before[n]) && Leaky(Exec(s, before[..n]))) {
      assert before[..n] == es[..n] && before[n] == es[n];
    }
  }

  lemma {:induction false} TightRun(s: State, es: seq<Event>)
    requires Inv(s) && Clean(s) && TightExits(s, es)
    ensures Inv(Exec(s, es)) && Clean(Exec(s, es))
  {
    if es != [] {
      var n := |es| - 1;
      TightLess(s, es);
      TightRun(s, es[..n]);
      StepKeeps(Exec(s, es[..n]), es[n]);
      CleanStep(Exec(s, es[..n]), es[n]);
    }
  }

  /**
   In a run whose standby exits find no leaking attempt, every posted (epoch, number) had been on disk
   before it was posted, and no snapshot carries a removal recorded under another epoch, although the
   epoch is read after the removals.
   */
  lemma PostsAreClean(now: int, es: seq<Event>, i: nat)
    requires TightExits(Init(now), es) && i < |Exec(Init(now), es).sent.posts|
    ensures var p := Exec(Init(now), es).sent.posts[i];
            p.durable && forall r :: r in p.removed ==> r.epoch == p.epoch
  {
    InitInv(now);
    TightRun(Init(now), es);
    var p := Exec(Init(now), es).sent.posts[i];
    assert CleanPost(p);
    forall r | r in p.removed ensures r.epoch == p.epoch {
      var j :| 0 <= j < |p.removed| && p.removed[j] == r;
    }
  }

  // --- entries that record standby --------------------------------------------------------------

  /** In the run no save of `enterCronStandby` that records standby fails. */
  ghost predicate Calm(s: State, es: seq<Event>) {
    forall n :: 0 <= n < |es| && es[n] == SaveEnd(false) ==> !EntryWrites(Exec(s, es[..n]))
  }

  predicate EntryWrites(s: State) { s.store.writing.Some? && s.store.writing.value.owner == ByEnter }

  /** Outside an entry under way, recorded standby means that the attempt then active was aborted. */
  ghost predicate Hushes(s: State) {
    s.store.mem.Some? && s.store.mem.value.standby && s.call !in {EnterSaving, EnterSaved} ==> s.hushed
  }

  lemma HushesFile(s: State, e: Event)
    requires Inv(s) && Hushes(s) && OfFile(e) && !(e == SaveEnd(false) && EntryWrites(s))
    ensures Hushes(Act(s, e))
  {}

  lemma HushesStep(s: State, e: Event)
    requires Inv(s) && Hushes(s) && !(e == SaveEnd(false) && EntryWrites(s))
    ensures Hushes(Step(s, e))
  {
    if OfPass(e) { PassFrame(s, e); }
    else if OfFile(e) { HushesFile(s, e); }
    else if Plain(e) { PlainFrame(s, e); }
    else { TurnFrame(s, e); }
  }

  lemma {:induction false} CalmHushes(s: State, es: seq<Event>)
    requires Inv(s) && Hushes(s) && Calm(s, es)
    ensures Inv(Exec(s, es)) && Hushes(Exec(s, es))
  {
    if es != [] {
      var n := |es| - 1;
      forall m | 0 <= m < n ensures es[..n][..m] == es[..m] {}
      CalmHushes(s, es[..n]);
      StepKeeps(Exec(s, es[..n]), es[n]);
      HushesStep(Exec(s, es[..n]), es[n]);
    }
  }

  lemma HushedIsTight(s: State, e: Event)
    requires Inv(s) && Hushes(s) && Clears(s, e)
    ensures !Leaky(s)
  {
    forall k | k in s.worker.attempts ensures !Leaks(k, s.worker.attempts[k], s.store) {
      assert PassOk(s.worker.attempts[k], s.store, s.sent, s.hushed);
    }
  }

  /** When no entry fails to save standby, no attempt leaks at an exit, as the entry has aborted it. */
  lemma CalmExitsAreTight(now: int, es: seq<Event>)
    requires Calm(Init(now), es)
    ensures TightExits(Init(now), es)
  {
    forall n | 0 <= n < |es| ensures !(Clears(Exec(Init(now), es[..n]), es[n]) && Leaky(Exec(Init(now), es[..n]))) {
      forall m | 0 <= m < n ensures es[..n][..m] == es[..m] {}
      InitInv(now);
      CalmHushes(Init(now), es[..n]);
      if Clears(Exec(Init(now), es[..n]), es[n]) { HushedIsTight(Exec(Init(now), es[..n]), es[n]); }
    }
  }

  // --- standby silence --------------------------------------------------------------------------

  /** Standby is recorded in memory, or on disk for a process that has not read the file yet. */
  predicate OnStandby(s: State) {
    if s.store.mem.Some? then s.store.mem.value.standby else s.store.disk.Some? && s.store.disk.value.standby
  }

  /** Recorded standby ends here: the exit takes effect, or the process forgets what was not on disk. */
  predicate Unsilences(s: State, e: Event) {
    || Clears(s, e)
    || (e.Crash? && !(s.store.disk.Some? && s.store.disk.value.standby))
    || (e.Load? && s.store.mem.None? && !e.readable)
  }

  ghost predicate KeepsSilent(s: State, es: seq<Event>) {
    forall n :: 0 <= n < |es| ==> !Unsilences(Exec(s, es[..n]), es[n])
  }

  ghost predicate StaysSilent(s: State, t: State) {
    && OnStandby(t) && t.sent.runPosts == s.sent.runPosts
    && (s.store.mem.None? || s.hushed ==> t.sent.posts == s.sent.posts && (t.store.mem.None? || t.hushed))
  }

  lemma SilentSend(s: State, k: nat)
    requires Inv(s) && OnStandby(s)
    ensures StaysSilent(s, PassSend(s, k))
  {
    if Runs(s, k, Stamped) { assert PassOk(s.worker.attempts[k], s.store, s.sent, s.hushed); }
  }

  lemma SilentSaves(s: State, e: Event)
    requires Inv(s) && OnStandby(s) && !Unsilences(s, e) && (e.Load? || e.SaveBegin? || e.SaveEnd? || e.Crash? || e.RunReport?)
    ensures StaysSilent(s, Act(s, e))
  {}

  lemma SilentNotes(s: State, e: Event)
    requires OnStandby(s) && Notes(e)
    ensures StaysSilent(s, Act(s, e))
  {}

  lemma SilentStandby(s: State, e: Event)
    requires Inv(s) && OnStandby(s) && !Unsilences(s, e) && OfStandby(e)
    ensures StaysSilent(s, Act(s, e))
  {}

  lemma SilentFile(s: State, e: Event)
    requires Inv(s) && OnStandby(s) && !Unsilences(s, e) && OfFile(e)
    ensures StaysSilent(s, Act(s, e))
  {
    if Notes(e) { SilentNotes(s, e); }
    else if OfStandby(e) { SilentStandby(s, e); }
    else { SilentSaves(s, e); }
  }

  lemma SilentOther(s: State, e: Event)
    requires OnStandby(s) && !e.Send? && !OfFile(e)
    ensures StaysSilent(s, Act(s, e))
  {
    if OfPass(e) { PassFrame(s, e); }
    else if Plain(e) { PlainFrame(s, e); }
    else { TurnFrame(s, e); }
  }

  lemma SilentStep(s: State, e: Event)
    requires Inv(s) && OnStandby(s) && !Unsilences(s, e)
    ensures StaysSilent(s, Step(s, e))
  {
    if e.Send? { SilentSend(s, e.link); }
    else if OfFile(e) { SilentFile(s, e); }
    else { SilentOther(s, e); }
  }

  /**
   From the moment standby is recorded no run report starts, and from the moment the active attempt
   was aborted no snapshot post starts, until standby is cleared or forgotten.
   */
  lemma {:induction false} StandbyIsSilent(s: State, es: seq<Event>)
    requires Inv(s) && OnStandby(s) && KeepsSilent(s, es)
    ensures OnStandby(Exec(s, es)) && Exec(s, es).sent.runPosts == s.sent.runPosts
    ensures s.store.mem.None? || s.hushed ==>
              Exec(s, es).sent.posts == s.sent.posts && (Exec(s, es).store.mem.None? || Exec(s, es).hushed)
  {
    if es != [] {
      var n := |es| - 1;
      forall m | 0 <= m < n ensures es[..n][..m] == es[..m] {}
      StandbyIsSilent(s, es[..n]);
      RunKeeps(s, es[..n]);
      SilentStep(Exec(s, es[..n]), es[n]);
    }
  }

  // --- removals ---------------------------------------------------------------------------------

  /** The pending removals as the process sees them, or will see them once it reads the file. */
  function Pending(s: State): set<JobId> {
    if s.store.mem.Some? then Ids(s.store.mem.value.pending)
    else if s.store.disk.Some? then Ids(s.store.disk.value.pending) else {}
  }

  /** The only ways out of the pending list. */
  ghost predicate Departs(s: State, e: Event, id: JobId) {
    // a posted snapshot that carried the removal was accepted
    || (e.Drop? && Runs(s, e.link, Dropping) && id in Ids(s.worker.attempts[e.link].removed))
    // pushed out by the cap
    || ((e.Removed? || e.NoteWaiting? || e.CommandRemoved?) && s.store.mem.Some?
        && |s.store.mem.value.pending| == MAX_PENDING_REMOVALS && s.store.mem.value.pending[0].id == id && e.id != id)
    // wiped by leaving standby
    || Clears(s, e)
    // the process died before the save, or the file could not be read
    || (e.Crash? && s.store.mem.Some? && !(s.store.disk.Some? && id in Ids(s.store.disk.value.pending)))
    || (e.Load? && s.store.mem.None? && !e.readable)
  }

  lemma RecordedKeepsIds(f: File, id: JobId, other: JobId)
    requires FileOk(f) && other in Ids(f.pending)
    requires |f.pending| == MAX_PENDING_REMOVALS ==> f.pending[0].id != other || id == other
    ensures other in Ids(Recorded(f, id).pending)
  {
    var r :| r in f.pending && r.id == other;
    var i :| 0 <= i < |f.pending| && f.pending[i] == r;
    if id !in Ids(f.pending) {
      var all := f.pending + [Removal(id, f.epoch)];
      var shift := |all| - |Recorded(f, id).pending|;
      assert all[i] == r && shift <= i;
      assert Recorded(f, id).pending[i - shift] == r;
    }
  }

  lemma DropKeepsOthers(s: State, k: nat, saved: bool, id: JobId)
    requires Inv(s) && id in Pending(s) && !Departs(s, Drop(k, saved), id)
    ensures id in Pending(PassDrop(s, k, saved))
  {
    if Runs(s, k, Dropping) && s.store.mem.Some? { DropTakes(s, k, saved); }
  }

  lemma NoteKeepsOthers(s: State, id: JobId, other: JobId)
    requires FilesInv(s) && other in Pending(s)
    requires s.store.mem.Some? && |s.store.mem.value.pending| == MAX_PENDING_REMOVALS ==>
               s.store.mem.value.pending[0].id != other || id == other
    ensures other in Pending(Note(s, id))
  {
    if s.store.mem.Some? { RecordedKeepsIds(s.store.mem.value, id, other); }
  }

  /** Such a step notes the removal or leaves the pending list alone. */
  lemma NotesOrNot(s: State, e: Event)
    requires Notes(e)
    ensures var t := Act(s, e);
            || (t.store == s.store && t.jobs == s.jobs)
            || (t.store == Note(s, e.id).store && t.jobs == Note(s, e.id).jobs)
    ensures e.Removed? && e.id in s.jobs.resetIds ==> Act(s, e).store == s.store && Act(s, e).jobs == s.jobs
    ensures e.NoteWaiting? && e.id !in s.jobs.waiting ==> Act(s, e) == s
  {}

  lemma NotedKeepsOthers(s: State, e: Event, id: JobId)
    requires Inv(s) && id in Pending(s) && !Departs(s, e, id) && Notes(e)
    ensures id in Pending(Act(s, e))
  {
    NotesOrNot(s, e);
    NoteKeepsOthers(s, e.id, id);
  }

  lemma FileKeepsOthers(s: State, e: Event, id: JobId)
    requires Inv(s) && id in Pending(s) && !Departs(s, e, id)
    requires OfFile(e) && !Notes(e)
    ensures id in Pending(Act(s, e))
  {}

  lemma PendingIsUntouched(s: State, e: Event)
    requires !e.Drop? && !OfFile(e)
    ensures Pending(Act(s, e)) == Pending(s)
  {
    if OfPass(e) { PassFrame(s, e); }
    else if Plain(e) { PlainFrame(s, e); }
    else { TurnFrame(s, e); }
  }

  lemma TickKeepsPending(s: State, tick: nat)
    ensures Pending(s.(tick := tick)) == Pending(s)
  {}

  lemma RemovalStays(s: State, e: Event, id: JobId)
    requires Inv(s) && id in Pending(s) && !Departs(s, e, id)
    ensures id in Pending(Step(s, e))
  {
    TickKeepsPending(Act(s, e), s.tick + 1);
    if e.Drop? { DropKeepsOthers(s, e.link, e.saved, id); }
    else if Notes(e) { NotedKeepsOthers(s, e, id); }
    else if OfFile(e) { FileKeepsOthers(s, e, id); }
    else { PendingIsUntouched(s, e); }
  }

  /** None of the ways out is taken for the removal of `id`. */
  ghost predicate NeverDeparts(s: State, es: seq<Event>, id: JobId) {
    forall n :: 0 <= n < |es| ==> !Departs(Exec(s, es[..n]), es[n], id)
  }

  lemma DepartsLess(s: State, es: seq<Event>, id: JobId)
    requires NeverDeparts(s, es, id) && es != []
    ensures NeverDeparts(s, es[..|es| - 1], id) && !Departs(Exec(s, es[..|es| - 1]), es[|es| - 1], id)
  {
    var before := es[..|es| - 1];
    forall n | 0 <= n < |before| ensures !Departs(Exec(s, before[..n]), before[n], id) {
      assert before[..n] == es[..n] && before[n] == es[n];
    }
  }

  /** A recorded removal stays pending over any run in which none of the ways out is taken for it. */
  lemma {:induction false} RemovalStaysOverRuns(s: State, es: seq<Event>, id: JobId)
    requires Inv(s) && id in Pending(s) && NeverDeparts(s, es, id)
    ensures id in Pending(Exec(s, es))
  {
    if es != [] {
      var n := |es| - 1;
      DepartsLess(s, es, id);
      RemovalStaysOverRuns(s, es[..n], id);
      RunKeeps(s, es[..n]);
      RemovalStays(Exec(s, es[..n]), es[n], id);
    }
  }

  lemma IdsWithout(rs: seq<Removal>, ids: set<JobId>)
    ensures Ids(Without(rs, ids)) == Ids(rs) - ids
  {
    WithoutKeeps(rs, ids);
    forall id | id in Ids(rs) - ids ensures id in Ids(Without(rs, ids)) {
      var r :| r in rs && r.id == id;
      assert r in Without(rs, ids);
    }
  }

  lemma DropCarries(s: State, k: nat)
    requires Inv(s) && Runs(s, k, Dropping)
    ensures s.store.mem.Some? && |s.sent.posts| > 0 && |s.sent.posts| - 1 in s.sent.accepted
    ensures s.sent.posts[|s.sent.posts| - 1].removed == s.worker.attempts[k].removed
  {
    assert PassOk(s.worker.attempts[k], s.store, s.sent, s.hushed);
  }

  lemma DropTakes(s: State, k: nat, saved: bool)
    requires s.store.mem.Some? && Runs(s, k, Dropping)
    ensures Pending(PassDrop(s, k, saved)) == Pending(s) - Ids(s.worker.attempts[k].removed)
  {
    var file, ids := s.store.mem.value, Ids(s.worker.attempts[k].removed);
    IdsWithout(file.pending, ids);
    assert PassDrop(s, k, saved).store.mem == Some(file.(pending := Without(file.pending, ids)));
  }

  lemma DropStep(s: State, k: nat, saved: bool)
    requires Inv(s) && Runs(s, k, Dropping)
    ensures |s.sent.posts| > 0 && |s.sent.posts| - 1 in s.sent.accepted
    ensures Pending(Step(s, Drop(k, saved))) == Pending(s) - Ids(s.sent.posts[|s.sent.posts| - 1].removed)
  {
    DropCarries(s, k);
    DropTakes(s, k, saved);
    assert Pending(Step(s, Drop(k, saved))) == Pending(PassDrop(s, k, saved));
  }

  /** What leaves through an accepted snapshot was carried by the last one posted, and is gone after. */
  lemma DropsOnlyWhatWasAccepted(now: int, es: seq<Event>, s: State, k: nat, saved: bool)
    requires s == Exec(Init(now), es) && Runs(s, k, Dropping)
    ensures |s.sent.posts| > 0 && |s.sent.posts| - 1 in s.sent.accepted
    ensures Pending(Step(s, Drop(k, saved))) == Pending(s) - Ids(s.sent.posts[|s.sent.posts| - 1].removed)
  {
    assert Inv(s) by {
      InitInv(now);
      RunKeeps(Init(now), es);
    }
    DropStep(s, k, saved);
  }

  /** The list never holds an id twice and never more than the cap. */
  lemma PendingIsBounded(now: int, es: seq<Event>)
    ensures var f := Exec(Init(now), es).store.mem;
            f.Some? ==> |f.value.pending| <= MAX_PENDING_REMOVALS
                        && forall i, j :: 0 <= i < j < |f.value.pending| ==> f.value.pending[i].id != f.value.pending[j].id
  {
    InitInv(now);
    RunKeeps(Init(now), es);
  }

  /**
   An id this process removes itself on leaving standby never becomes pending through the removal
   events that follow, as long as the process lives and no command names it.
   */
  lemma {:induction false} OwnRemovalsAreNotReported(s: State, es: seq<Event>, id: JobId)
    requires Inv(s) && s.store.mem.Some? && id in s.jobs.resetIds && id !in s.jobs.waiting && id !in Pending(s)
    requires Crash !in es && CommandRemoved(id) !in es
    ensures var t := Exec(s, es);
            t.store.mem.Some? && id in t.jobs.resetIds && id !in t.jobs.waiting && id !in Pending(t)
  {
    if es != [] {
      var n := |es| - 1;
      OwnRemovalsAreNotReported(s, es[..n], id);
      RunKeeps(s, es[..n]);
      OwnRemovalStep(Exec(s, es[..n]), es[n], id);
    }
  }

  /** The id was removed here, and its removal is neither pending nor about to be. */
  ghost predicate OwnRemoval(s: State, id: JobId) {
    s.store.mem.Some? && id in s.jobs.resetIds && id !in s.jobs.waiting && id !in Pending(s)
  }

  lemma OwnRemovalDrop(s: State, k: nat, saved: bool, id: JobId)
    requires OwnRemoval(s, id)
    ensures OwnRemoval(PassDrop(s, k, saved), id)
  {
    if Runs(s, k, Dropping) { WithoutKeeps(s.store.mem.value.pending, Ids(s.worker.attempts[k].removed)); }
  }

  lemma OtherNoted(s: State, id: JobId, other: JobId)
    requires OwnRemoval(s, other) && id != other
    ensures OwnRemoval(Note(s, id), other)
  {
    var file := s.store.mem.value;
    if id !in Ids(file.pending) {
      forall r | r in Recorded(file, id).pending ensures r.id != other {
        assert r in file.pending || r == Removal(id, file.epoch);
      }
    }
  }

  lemma OwnRemovalNote(s: State, e: Event, id: JobId)
    requires OwnRemoval(s, id) && Notes(e) && e != CommandRemoved(id)
    ensures OwnRemoval(Act(s, e), id)
  {
    NotesOrNot(s, e);
    if e.id != id { OtherNoted(s, e.id, id); }
  }

  lemma OwnRemovalFile(s: State, e: Event, id: JobId)
    requires OwnRemoval(s, id) && OfFile(e) && e != Crash && !Notes(e)
    ensures OwnRemoval(Act(s, e), id)
  {}

  lemma OwnRemovalStep(s: State, e: Event, id: JobId)
    requires Inv(s) && OwnRemoval(s, id) && e != Crash && e != CommandRemoved(id)
    ensures OwnRemoval(Step(s, e), id)
  {
    if e.Drop? { OwnRemovalDrop(s, e.link, e.saved, id); }
    else if OfPass(e) { PassFrame(s, e); }
    else if Notes(e) { OwnRemovalNote(s, e, id); }
    else if OfFile(e) { OwnRemovalFile(s, e, id); }
    else if Plain(e) { PlainFrame(s, e); }
    else { TurnFrame(s, e); }
  }
}
