/** What a snapshot, a standby entry, a standby exit and a removal event come to when nothing stands in the way. */
module CronSyncCalls {
  import opened Common
  import opened CronSync
  import opened CronSyncInvariant
  import opened CronSyncFiles
  import opened CronSyncRuns
  import opened CronSyncExits
  import opened CronSyncWorker

  // --- a snapshot -------------------------------------------------------------------------------

  /** The removals that one snapshot carries: the oldest 200. */
  function Oldest(rs: seq<Removal>): seq<Removal> { if |rs| < 200 then rs else rs[..200] }

  /** Attempt `k` waits in `phase`, was not aborted, and no request came after it began. */
  ghost predicate Attempts(s: State, k: nat, phase: Phase) {
    && Full(s) && Runs(s, k, phase) && !s.worker.attempts[k].Aborted() && s.worker.requestedAt < s.worker.attempts[k].began
  }

  lemma TwoSteps(s: State, a: Event, b: Event)
    ensures Exec(s, [a, b]) == Step(Step(s, a), b)
  {
    ExecPlus(s, [], a);
    ExecPlus(s, [a], b);
    assert [] + [a] == [a] && [a] + [b] == [a, b];
  }

  lemma LoadedGives(s: State, k: nat)
    requires Attempts(s, k, Starting) && s.store.mem.Some? && !s.store.mem.value.standby
    ensures var t := Step(s, Loaded(k, false));
            && Attempts(t, k, Listing) && t.store == s.store && t.sent == s.sent && t.now == s.now && t.jobs == s.jobs
            && t.worker.requested == s.worker.requested
  {
    FullStep(s, Loaded(k, false));
  }

  lemma ListedGives(s: State, k: nat, mirrored: set<JobId>, foreign: set<JobId>)
    requires Attempts(s, k, Listing) && s.store.mem.Some?
    ensures var t := Step(s, Listed(k, mirrored, foreign));
            && Attempts(t, k, Numbering) && t.store == s.store && t.sent == s.sent && t.now == s.now
            && t.jobs == s.jobs.(mirrored := mirrored, foreign := foreign) && t.worker.requested == s.worker.requested
            && t.worker.attempts[k].removed == Oldest(s.store.mem.value.pending)
  {
    FullStep(s, Listed(k, mirrored, foreign));
  }

  lemma ListPhase(s: State, k: nat, mirrored: set<JobId>, foreign: set<JobId>) returns (t: State)
    requires Attempts(s, k, Starting) && s.store.mem.Some? && !s.store.mem.value.standby
    ensures t == Exec(s, [Loaded(k, false), Listed(k, mirrored, foreign)]) && Attempts(t, k, Numbering)
    ensures t.store == s.store && t.sent == s.sent && t.now == s.now
    ensures t.jobs == s.jobs.(mirrored := mirrored, foreign := foreign)
    ensures t.worker.attempts[k].removed == Oldest(s.store.mem.value.pending) && t.worker.requested == s.worker.requested
  {
    LoadedGives(s, k);
    var u := Step(s, Loaded(k, false));
    ListedGives(u, k, mirrored, foreign);
    t := Step(u, Listed(k, mirrored, foreign));
    TwoSteps(s, Loaded(k, false), Listed(k, mirrored, foreign));
  }

  lemma NumberGives(s: State, k: nat)
    requires Attempts(s, k, Numbering) && s.store.mem.Some?
    ensures var number, t := Max(s.store.mem.value.lastSeq + 1, s.now), Step(s, Number(k));
            && Attempts(t, k, Saving) && t.store == s.store.(mem := Some(s.store.mem.value.(lastSeq := number)))
            && t.sent == s.sent && t.jobs == s.jobs && t.worker.requested == s.worker.requested
            && t.worker.attempts[k].number == number && t.worker.attempts[k].removed == s.worker.attempts[k].removed
  {
    var number := Max(s.store.mem.value.lastSeq + 1, s.now);
    assert Step(s, Number(k)) ==
           s.(store := s.store.(mem := Some(s.store.mem.value.(lastSeq := number))), tick := s.tick + 1,
              worker := SetPass(s.worker, k, s.worker.attempts[k].(phase := Saving, number := number)));
    FullStep(s, Number(k));
  }

  lemma BeginGives(s: State, k: nat)
    requires Attempts(s, k, Saving) && s.store.mem.Some? && s.store.writing.None?
    ensures var t := Step(s, SaveBegin(ByPass(k)));
            && Attempts(t, k, Saving) && t.store == s.store.(writing := Some(Write(ByPass(k), s.store.mem.value)))
            && t.sent == s.sent && t.jobs == s.jobs && t.worker == s.worker
  {
    FullStep(s, SaveBegin(ByPass(k)));
  }

  lemma EndGives(s: State, k: nat)
    requires Attempts(s, k, Saving) && s.store.writing.Some? && s.store.writing.value.owner == ByPass(k)
    ensures var file, t := s.store.writing.value.file, Step(s, SaveEnd(true));
            && Attempts(t, k, Stamped)
            && t.store == s.store.(writing := None, disk := Some(file), onDisk := s.store.onDisk + {(file.epoch, file.lastSeq)})
            && t.sent == s.sent && t.jobs == s.jobs && t.worker.requested == s.worker.requested
            && t.worker.attempts[k].number == s.worker.attempts[k].number
            && t.worker.attempts[k].removed == s.worker.attempts[k].removed
  {
    FullStep(s, SaveEnd(true));
  }

  lemma NumberPhase(s: State, k: nat) returns (t: State)
    requires Attempts(s, k, Numbering) && s.store.mem.Some? && s.store.writing.None?
    ensures var number := Max(s.store.mem.value.lastSeq + 1, s.now);
            var file := s.store.mem.value.(lastSeq := number);
            && t == Exec(s, [Number(k), SaveBegin(ByPass(k))] + [SaveEnd(true)]) && Attempts(t, k, Stamped)
            && t.store == s.store.(mem := Some(file), disk := Some(file), onDisk := s.store.onDisk + {(file.epoch, number)})
            && t.sent == s.sent && t.jobs == s.jobs && t.worker.requested == s.worker.requested
            && t.worker.attempts[k].number == number && t.worker.attempts[k].removed == s.worker.attempts[k].removed
  {
    NumberGives(s, k);
    var u := Step(s, Number(k));
    BeginGives(u, k);
    var v := Step(u, SaveBegin(ByPass(k)));
    EndGives(v, k);
    t := Step(v, SaveEnd(true));
    TwoSteps(s, Number(k), SaveBegin(ByPass(k)));
    ExecPlus(s, [Number(k), SaveBegin(ByPass(k))], SaveEnd(true));
  }

  lemma SendGives(s: State, k: nat)
    requires Attempts(s, k, Stamped)
    ensures s.store.mem.Some? && Attempts(Step(s, Send(k)), k, Posting)
    ensures var file, p, t := s.store.mem.value, s.worker.attempts[k], Step(s, Send(k));
            && t.sent == s.sent.(posts := s.sent.posts + [Post(file.epoch, p.number, p.removed, (file.epoch, p.number) in s.store.onDisk)])
            && t.store == s.store && t.jobs == s.jobs && t.worker.requested == s.worker.requested
            && t.worker.attempts[k].removed == p.removed
  {
    assert PassOk(s.worker.attempts[k], s.store, s.sent, s.hushed);
    FullStep(s, Send(k));
  }

  lemma AnswerGives(s: State, k: nat)
    requires Attempts(s, k, Posting)
    ensures |s.sent.posts| > 0 && Attempts(Step(s, Answer(k, true)), k, Dropping)
    ensures var t := Step(s, Answer(k, true));
            && t.sent == s.sent.(accepted := s.sent.accepted + {|s.sent.posts| - 1})
            && t.store == s.store && t.jobs == s.jobs && t.worker.requested == s.worker.requested
            && t.worker.attempts[k].removed == s.worker.attempts[k].removed
  {
    assert PassOk(s.worker.attempts[k], s.store, s.sent, s.hushed);
    FullStep(s, Answer(k, true));
  }

  lemma PostPhase(s: State, k: nat) returns (t: State)
    requires Attempts(s, k, Stamped)
    ensures s.store.mem.Some? && t == Exec(s, [Send(k), Answer(k, true)]) && Attempts(t, k, Dropping)
    ensures var file, p := s.store.mem.value, s.worker.attempts[k];
            && t.sent.posts == s.sent.posts + [Post(file.epoch, p.number, p.removed, (file.epoch, p.number) in s.store.onDisk)]
            && t.sent.accepted == s.sent.accepted + {|s.sent.posts|}
    ensures t.store == s.store && t.jobs == s.jobs && t.worker.attempts[k].removed == s.worker.attempts[k].removed
    ensures t.worker.requested == s.worker.requested
  {
    SendGives(s, k);
    var u := Step(s, Send(k));
    AnswerGives(u, k);
    t := Step(u, Answer(k, true));
    TwoSteps(s, Send(k), Answer(k, true));
  }

  lemma DropGives(s: State, k: nat)
    requires Attempts(s, k, Dropping)
    ensures s.store.mem.Some?
    ensures var file, t := s.store.mem.value, Step(s, Drop(k, true));
            && Attempts(t, k, Finishing) && t.sent == s.sent && t.jobs == s.jobs && t.worker.requested == s.worker.requested
            && t.store == s.store.(mem := Some(file.(pending := Without(file.pending, Ids(s.worker.attempts[k].removed)))))
  {
    assert PassOk(s.worker.attempts[k], s.store, s.sent, s.hushed);
    FullStep(s, Drop(k, true));
  }

  lemma ReturnGives(s: State, k: nat)
    requires Attempts(s, k, Finishing)
    ensures var t := Step(s, Return(k));
            && t.store == s.store && t.sent == s.sent && t.jobs == s.jobs
            && t.worker.applied == t.worker.requested == s.worker.requested && t.worker.active.None?
  {}

  lemma DropPhase(s: State, k: nat) returns (t: State)
    requires Attempts(s, k, Dropping)
    ensures s.store.mem.Some? && t == Exec(s, [Drop(k, true), Return(k)])
    ensures t.store.mem == Some(s.store.mem.value.(pending := Without(s.store.mem.value.pending, Ids(s.worker.attempts[k].removed))))
    ensures t.store.disk == s.store.disk && t.sent == s.sent && t.jobs == s.jobs
    ensures t.worker.applied == t.worker.requested == s.worker.requested && t.worker.active.None?
  {
    DropGives(s, k);
    var u := Step(s, Drop(k, true));
    ReturnGives(u, k);
    t := Step(u, Return(k));
    TwoSteps(s, Drop(k, true), Return(k));
  }

  /** The events of one projection to which nothing happens. */
  function Projection(k: nat, mirrored: set<JobId>, foreign: set<JobId>): seq<Event> {
    [Loaded(k, false), Listed(k, mirrored, foreign)] + ([Number(k), SaveBegin(ByPass(k))] + [SaveEnd(true)])
    + [Send(k), Answer(k, true)] + [Drop(k, true), Return(k)]
  }

  /**
   Off standby an attempt to which nothing happens posts one snapshot, under the epoch of the file, with the next number
   that is not below the clock, on disk before, and with the oldest 200 pending removals; once it is accepted these
   are pending no longer, the job ids of the list are remembered, and the last request is applied.
   */
  lemma SnapshotGoesOut(s: State, k: nat, mirrored: set<JobId>, foreign: set<JobId>) returns (t: State)
    requires Attempts(s, k, Starting) && s.store.mem.Some? && !s.store.mem.value.standby && s.store.writing.None?
    ensures t == Exec(s, Projection(k, mirrored, foreign))
    ensures var file := s.store.mem.value;
            var number, carried := Max(file.lastSeq + 1, s.now), Oldest(file.pending);
            && t.sent.posts == s.sent.posts + [Post(file.epoch, number, carried, true)] && |s.sent.posts| in t.sent.accepted
            && t.store.disk == Some(file.(lastSeq := number))
            && t.store.mem == Some(file.(lastSeq := number, pending := Without(file.pending, Ids(carried))))
            && t.jobs == s.jobs.(mirrored := mirrored, foreign := foreign)
            && t.worker.applied == t.worker.requested == s.worker.requested && t.worker.active.None?
  {
    var a := ListPhase(s, k, mirrored, foreign);
    var b := NumberPhase(a, k);
    var d := PostPhase(b, k);
    t := DropPhase(d, k);
    ProjectionRuns(s, k, mirrored, foreign, a, b, d, t);
  }

  lemma ProjectionRuns(s: State, k: nat, mirrored: set<JobId>, foreign: set<JobId>, t: State, u: State, v: State, w: State)
    requires t == Exec(s, [Loaded(k, false), Listed(k, mirrored, foreign)])
    requires u == Exec(t, [Number(k), SaveBegin(ByPass(k))] + [SaveEnd(true)])
    requires v == Exec(u, [Send(k), Answer(k, true)]) && w == Exec(v, [Drop(k, true), Return(k)])
    ensures w == Exec(s, Projection(k, mirrored, foreign))
  {
    ThreeAppends(s, [Loaded(k, false), Listed(k, mirrored, foreign)], [Number(k), SaveBegin(ByPass(k))] + [SaveEnd(true)],
                 [Send(k), Answer(k, true)], [Drop(k, true), Return(k)]);
  }

  lemma ThreeAppends(s: State, a: seq<Event>, b: seq<Event>, d: seq<Event>, e: seq<Event>)
    ensures Exec(s, a + b + d + e) == Exec(Exec(Exec(Exec(s, a), b), d), e)
  {
    Appends(s, a, b);
    Appends(s, a + b, d);
    Appends(s, a + b + d, e);
  }

  lemma {:induction false} Appends(s: State, a: seq<Event>, b: seq<Event>)
    ensures Exec(s, a + b) == Exec(Exec(s, a), b)
  {
    if b == [] {
      assert a + b == a;
    } else {
      Appends(s, a, b[..|b| - 1]);
      assert (a + b)[..|a + b| - 1] == a + b[..|b| - 1];
    }
  }

  /** An answer that does not accept the snapshot drops nothing; a drop whose save failed fails the attempt. */
  lemma NotAcceptedOrNotSaved(s: State, k: nat)
    requires Full(s)
    ensures Runs(s, k, Posting) ==>
              Step(s, Answer(k, false)).sent == s.sent && Runs(Step(s, Answer(k, false)), k, Finishing)
    ensures Runs(s, k, Dropping) ==>
              var t := Step(s, Drop(k, false)); t.store == Step(s, Drop(k, true)).store && Runs(t, k, Failing)
  {
    if k in s.worker.attempts { assert PassOk(s.worker.attempts[k], s.store, s.sent, s.hushed); }
  }

  // --- standby ----------------------------------------------------------------------------------

  /** No call is under way, the file is loaded, and nobody writes it. */
  ghost predicate AtRest(s: State) { Full(s) && s.call == NoCall && s.store.mem.Some? && s.store.writing.None? }

  const ENTRY: seq<Event> := [EnterCall, EnterLoaded, SaveBegin(ByEnter), SaveEnd(true), EnterAbort, EnterReturn]

  lemma SixSteps(s: State, a: Event, b: Event, d: Event, e: Event, f: Event, g: Event)
    ensures Exec(s, [a, b, d, e, f, g]) == Step(Step(Step(Step(Step(Step(s, a), b), d), e), f), g)
  {
    TwoSteps(s, a, b);
    ExecPlus(s, [a, b], d);
    ExecPlus(s, [a, b, d], e);
    ExecPlus(s, [a, b, d, e], f);
    ExecPlus(s, [a, b, d, e, f], g);
    assert [a, b] + [d] == [a, b, d] && [a, b, d] + [e] == [a, b, d, e];
    assert [a, b, d, e] + [f] == [a, b, d, e, f] && [a, b, d, e, f] + [g] == [a, b, d, e, f, g];
  }

  /** The entry that is not disturbed records standby in memory and on disk, withdraws the confirmation and aborts the attempt. */
  lemma EntryRecordsStandby(s: State)
    requires AtRest(s) && !s.store.mem.value.standby
    ensures var t, file := Exec(s, ENTRY), s.store.mem.value.(standby := true);
            && t.store.mem == t.store.disk == Some(file) && t.store.writing.None? && t.call == NoCall && !t.gate.confirmed
            && t.sent == s.sent && t.jobs == s.jobs && t.worker == Supersede(s.worker)
            && forall k :: k in t.worker.attempts ==> t.worker.attempts[k].Aborted()
  {
    SixSteps(s, EnterCall, EnterLoaded, SaveBegin(ByEnter), SaveEnd(true), EnterAbort, EnterReturn);
    var a := EntryRecords(s);
    var b := EntrySaves(a);
    EntryAborts(b);
    assert forall k :: k in s.worker.attempts ==> s.worker.active == Some(k);
  }

  lemma EntryRecords(s: State) returns (t: State)
    requires AtRest(s) && !s.store.mem.value.standby
    ensures t == Step(Step(s, EnterCall), EnterLoaded)
    ensures t == s.(gate := s.gate.(confirmed := false), store := s.store.(mem := Some(s.store.mem.value.(standby := true))),
                    call := EnterSaving, hushed := false, tick := s.tick + 2)
  {
    var a := Step(s, EnterCall);
    assert a == s.(gate := s.gate.(confirmed := false), call := EnterLoading, tick := s.tick + 1);
    t := Step(a, EnterLoaded);
  }

  lemma EntrySaves(s: State) returns (t: State)
    requires s.call == EnterSaving && s.store.mem.Some? && s.store.writing.None?
    ensures t == Step(Step(s, SaveBegin(ByEnter)), SaveEnd(true))
    ensures t == s.(call := EnterSaved, tick := s.tick + 2, store := t.store)
    ensures t.store == s.store.(disk := s.store.mem, onDisk := t.store.onDisk)
  {
    var a := Step(s, SaveBegin(ByEnter));
    assert a == s.(store := s.store.(writing := Some(Write(ByEnter, s.store.mem.value))), tick := s.tick + 1);
    t := Step(a, SaveEnd(true));
  }

  lemma EntryAborts(s: State)
    requires s.call == EnterSaved
    ensures Step(Step(s, EnterAbort), EnterReturn) ==
            s.(worker := Supersede(s.worker), call := NoCall, hushed := true, tick := s.tick + 2)
  {
    assert Step(s, EnterAbort) == s.(worker := Supersede(s.worker), call := EnterDisabling, hushed := true, tick := s.tick + 1);
  }

  /** Entering again only withdraws the confirmation and aborts the attempt. */
  lemma EntryOnStandby(s: State)
    requires AtRest(s) && s.store.mem.value.standby
    ensures Step(Step(s, EnterCall), EnterLoaded) ==
            s.(gate := s.gate.(confirmed := false), worker := Supersede(s.worker), call := EnterDisabling, hushed := true,
               tick := s.tick + 2)
  {
    assert Step(s, EnterCall) == s.(gate := s.gate.(confirmed := false), call := EnterLoading, tick := s.tick + 1);
  }

  function Exit(id: JobId): seq<Event> {
    [LeaveCall, LeaveLoaded, LeaveRemove(id), LeaveClear, SaveBegin(ByLeave), SaveEnd(true)]
  }

  /**
   The exit that is not disturbed, here with one job of its own to remove, clears standby in memory and on disk under an
   epoch never used before, with no removal pending; then it confirms the instance, forgets the mirrored ids, and
   asks for a projection if there is a reader.
   */
  lemma ExitClearsStandby(s: State, id: JobId)
    requires AtRest(s) && s.store.mem.value.standby
    ensures var t := Step(Exec(s, Exit(id)), LeaveConfirm);
            var file := File(s.store.nextEpoch, s.store.mem.value.lastSeq, [], false);
            && t.store.mem == t.store.disk == Some(file) && t.store.writing.None? && t.call == NoCall && t.gate.confirmed
            && t.store.nextEpoch == s.store.nextEpoch + 1
            && t.jobs == s.jobs.(mirrored := {}, resetIds := s.jobs.resetIds + {id}) && t.sent == s.sent
            && t.worker == if s.gate.hasReader then RequestBy(s.worker, s.tick + 6) else s.worker
  {
    SixSteps(s, LeaveCall, LeaveLoaded, LeaveRemove(id), LeaveClear, SaveBegin(ByLeave), SaveEnd(true));
    var a := ExitBegins(s);
    var b := ExitClears(a, id);
    var d := ExitSaves(b);
    ExitConfirms(d);
  }

  lemma ExitBegins(s: State) returns (t: State)
    requires AtRest(s) && s.store.mem.value.standby
    ensures t == Step(Step(s, LeaveCall), LeaveLoaded) == s.(call := LeaveRemoving, tick := s.tick + 2)
  {
    t := Step(Step(s, LeaveCall), LeaveLoaded);
  }

  lemma ExitClears(s: State, id: JobId) returns (t: State)
    requires s.call == LeaveRemoving && s.store.mem.Some?
    ensures t == Step(Step(s, LeaveRemove(id)), LeaveClear) ==
            s.(call := LeaveSaving, jobs := s.jobs.(resetIds := s.jobs.resetIds + {id}), tick := s.tick + 2,
               store := s.store.(mem := Some(File(s.store.nextEpoch, s.store.mem.value.lastSeq, [], false)),
                                 nextEpoch := s.store.nextEpoch + 1))
  {
    t := Step(Step(s, LeaveRemove(id)), LeaveClear);
  }

  lemma ExitSaves(s: State) returns (t: State)
    requires s.call == LeaveSaving && s.store.mem.Some? && s.store.writing.None?
    ensures t == Step(Step(s, SaveBegin(ByLeave)), SaveEnd(true))
    ensures t == s.(call := LeaveSaved, tick := s.tick + 2, store := t.store)
    ensures t.store == s.store.(disk := s.store.mem, onDisk := t.store.onDisk)
  {
    var a := Step(s, SaveBegin(ByLeave));
    assert a == s.(store := s.store.(writing := Some(Write(ByLeave, s.store.mem.value))), tick := s.tick + 1);
    t := Step(a, SaveEnd(true));
  }

  lemma ExitConfirms(s: State)
    requires s.call == LeaveSaved
    ensures var t := Step(s, LeaveConfirm);
            t == s.(jobs := s.jobs.(mirrored := {}), gate := s.gate.(confirmed := true), call := NoCall, tick := s.tick + 1,
                    worker := if s.gate.hasReader then RequestBy(s.worker, s.tick) else s.worker)
  {}

  /** Leaving off standby confirms the instance, once, and asks for a projection then. */
  lemma ExitOffStandby(s: State)
    requires AtRest(s) && !s.store.mem.value.standby
    ensures Step(Step(s, LeaveCall), LeaveLoaded) ==
            s.(gate := s.gate.(confirmed := true), tick := s.tick + 2,
               worker := if s.gate.hasReader && !s.gate.confirmed then RequestBy(s.worker, s.tick + 1) else s.worker)
  {
    assert Step(s, LeaveCall) == s.(call := LeaveLoading, tick := s.tick + 1);
  }

  /** A request aborts the attempt in flight and puts one more link, for the new revision, behind all others. */
  lemma RequestAsks(s: State)
    requires Full(s)
    ensures var t := Step(s, Request);
            && t.worker.requested == s.worker.requested + 1 && t.worker.applied == s.worker.applied
            && t.worker.chain == s.worker.chain + [Waiting(s.worker.requested + 1)] && t.worker.active == s.worker.active
            && (forall k :: k in t.worker.attempts <==> k in s.worker.attempts)
            && (forall k :: k in t.worker.attempts ==> t.worker.attempts[k] == s.worker.attempts[k].(superseded := true))
            && t == s.(worker := t.worker, tick := s.tick + 1)
  {}

  /** A gateway stop aborts the attempt in flight and closes the gate. */
  lemma StopAborts(s: State)
    requires Full(s)
    ensures var t := Step(s, Stop);
            && (forall k :: k in t.worker.attempts <==> k in s.worker.attempts)
            && (forall k :: k in t.worker.attempts ==> t.worker.attempts[k] == s.worker.attempts[k].(superseded := true))
            && t.worker == s.worker.(attempts := t.worker.attempts)
            && t == s.(worker := t.worker, gate := s.gate.(stopped := true), tick := s.tick + 1)
  {}

  // --- the gate ---------------------------------------------------------------------------------

  /** The gate as the last stop or resume, the last reader and the last owner signal since a crash left it. */
  ghost predicate StoppedIn(es: seq<Event>) {
    es != [] &&
    var e := es[|es| - 1];
    e.Stop? || (!e.Resume? && !e.Crash? && StoppedIn(es[..|es| - 1]))
  }

  ghost predicate ReadIn(es: seq<Event>) {
    es != [] &&
    var e := es[|es| - 1];
    if e.Reader? then e.present else !e.Crash? && ReadIn(es[..|es| - 1])
  }

  ghost predicate LostIn(es: seq<Event>) {
    es != [] &&
    var e := es[|es| - 1];
    e.OwnerGone? || (!e.Reader? && !e.Crash? && LostIn(es[..|es| - 1]))
  }

  ghost function TimeIn(now: int, es: seq<Event>): int {
    if es == [] then now
    else if es[|es| - 1].Clock? then es[|es| - 1].now else TimeIn(now, es[..|es| - 1])
  }

  lemma StoppedMoves(s: State, e: Event)
    ensures Step(s, e).gate.stopped <==> e.Stop? || (!e.Resume? && !e.Crash? && s.gate.stopped)
  {}

  lemma ReadMoves(s: State, e: Event)
    ensures Step(s, e).gate.hasReader <==> if e.Reader? then e.present else !e.Crash? && s.gate.hasReader
  {}

  lemma LostMoves(s: State, e: Event)
    ensures Step(s, e).gate.ownerLost <==> e.OwnerGone? || (!e.Reader? && !e.Crash? && s.gate.ownerLost)
  {}

  lemma TimeMoves(s: State, e: Event)
    ensures Step(s, e).now == if e.Clock? then e.now else s.now
  {}

  /**
   Over any trace the worker may work exactly when the last reader given is there, its owner is not gone and no
   stop came after the last resume.
   */
  lemma {:induction false} GateTells(now: int, es: seq<Event>)
    ensures var s := Exec(Init(now), es);
            && s.gate.stopped == StoppedIn(es) && s.gate.hasReader == ReadIn(es) && s.gate.ownerLost == LostIn(es)
            && s.now == TimeIn(now, es)
    ensures Working(Exec(Init(now), es).gate) <==> ReadIn(es) && !StoppedIn(es) && !LostIn(es)
  {
    if es != [] {
      GateTells(now, es[..|es| - 1]);
      var before, e := Exec(Init(now), es[..|es| - 1]), es[|es| - 1];
      StoppedMoves(before, e);
      ReadMoves(before, e);
      LostMoves(before, e);
      TimeMoves(before, e);
    }
  }

  /** A call given up changes nothing but that it is over: standby and the file stay as they are. */
  lemma GivenUp(s: State, e: Event)
    requires e == EnterReturn || e == LeaveGiveUp
    ensures Step(s, e) == s.(call := Step(s, e).call, tick := s.tick + 1)
    ensures s.call == EnterLoading || s.call == EnterDisabling ==> Step(s, EnterReturn).call == NoCall
    ensures s.call == LeaveLoading || s.call == LeaveRemoving ==> Step(s, LeaveGiveUp).call == NoCall
  {}

  // --- the file ---------------------------------------------------------------------------------

  /** With nothing loaded the file is read as it is; an unreadable or missing one is replaced by an empty one of a new epoch. */
  lemma LoadReads(s: State, readable: bool, writes: bool)
    requires s.store.mem.None? && s.store.writing.None?
    ensures var f, t := s.store, Step(s, Load(readable, writes)).store;
            if f.disk.Some? && readable then t == f.(mem := f.disk)
            else if writes then
              t == Store(f.nextEpoch + 1, Some(File(f.nextEpoch, 0, [], false)), Some(File(f.nextEpoch, 0, [], false)), None,
                         f.onDisk + {(f.nextEpoch, 0)})
            else t == f
  {}

  /** What is loaded is not read again. */
  lemma LoadOnce(s: State, readable: bool, writes: bool)
    requires s.store.mem.Some?
    ensures Step(s, Load(readable, writes)).store == s.store
  {}

  /** A write under way is replaced by no other one: it ends, or the process dies. */
  lemma OneWriteAtATime(s: State, e: Event)
    requires s.store.writing.Some?
    ensures Step(s, e).store.writing == s.store.writing <==> !e.SaveEnd? && !e.Crash?
  {}

  /**
   A save by anybody other than an attempt writes the file as it stands and touches nothing else; one that fails
   leaves the disk as it was, and ends an entry or an exit that waits for it there.
   */
  lemma SaveEnds(s: State, owner: Owner, ok: bool)
    requires s.store.mem.Some? && s.store.writing.None?
    requires owner == ByOther || (owner == ByEnter && s.call == EnterSaving) || (owner == ByLeave && s.call == LeaveSaving)
    ensures var t, file := Step(Step(s, SaveBegin(owner)), SaveEnd(ok)), s.store.mem.value;
            && t == s.(store := t.store, call := t.call, tick := s.tick + 2)
            && t.store == (if ok then s.store.(disk := Some(file), onDisk := s.store.onDisk + {(file.epoch, file.lastSeq)})
                           else s.store)
            && t.call == if owner == ByOther then s.call
                         else if !ok then NoCall else if owner == ByEnter then EnterSaved else LeaveSaved
  {
    var t := Step(s, SaveBegin(owner));
    assert t.store == s.store.(writing := Some(Write(owner, s.store.mem.value))) && t.call == s.call;
  }

  /** A crash leaves a fresh process, which reads what was on disk. */
  lemma CrashKeepsTheDisk(s: State)
    ensures Step(s, Crash) ==
            Init(s.now).(tick := s.tick + 1, store := s.store.(mem := None, writing := None), sent := s.sent)
    ensures s.store.disk.Some? ==>
              Step(Step(s, Crash), Load(true, true)).store == s.store.(mem := s.store.disk, writing := None)
  {
    assert Step(s, Crash).store == s.store.(mem := None, writing := None);
  }

  // --- removal events ---------------------------------------------------------------------------

  /** The pending list with `id` at its end, unless it is there: the newest 500. */
  function With(rs: seq<Removal>, id: JobId, epoch: nat): seq<Removal> {
    if exists r :: r in rs && r.id == id then rs
    else if |rs| < 500 then rs + [Removal(id, epoch)] else rs[|rs| - 499..] + [Removal(id, epoch)]
  }

  /**
   A removal event is recorded exactly when the job is known to be mirrored, or looks it and is not known to be
   foreign, unless this process removed it itself; without a loaded file it waits. It asks for a projection if
   there is a reader.
   */
  lemma RemovalIsRecordedExactly(s: State, id: JobId, guess: bool)
    requires Full(s)
    ensures var t := Step(s, Removed(id, guess));
            var notes := (id in s.jobs.mirrored || (guess && id !in s.jobs.foreign)) && id !in s.jobs.resetIds;
            && t.store == (if notes && s.store.mem.Some?
                           then s.store.(mem := Some(s.store.mem.value.(pending := With(s.store.mem.value.pending, id, s.store.mem.value.epoch))))
                           else s.store)
            && t.jobs == (if !notes then s.jobs
                          else if s.store.mem.None? then s.jobs.(waiting := s.jobs.waiting + {id})
                          else s.jobs.(mirrored := s.jobs.mirrored - {id}, waiting := s.jobs.waiting - {id}))
            && t.worker == if s.gate.hasReader then RequestBy(s.worker, s.tick) else s.worker
  {
    if s.store.mem.Some? { RecordedIsWith(s.store.mem.value, id); }
  }

  lemma RecordedIsWith(f: File, id: JobId)
    requires FileOk(f)
    ensures Recorded(f, id) == f.(pending := With(f.pending, id, f.epoch))
  {
    assert id in Ids(f.pending) <==> exists r :: r in f.pending && r.id == id;
    if |f.pending| == 500 {
      assert (f.pending + [Removal(id, f.epoch)])[1..] == f.pending[1..] + [Removal(id, f.epoch)];
    }
  }

  /**
   A removal that waits for the file, or that a command made, is recorded like any other; a command's only of a
   mirrored job.
   */
  lemma NotedLater(s: State, id: JobId)
    requires Full(s) && s.store.mem.Some?
    ensures var file := s.store.mem.value;
            var noted := s.store.(mem := Some(file.(pending := With(file.pending, id, file.epoch))));
            && Step(s, NoteWaiting(id)).store == (if id in s.jobs.waiting then noted else s.store)
            && Step(s, CommandRemoved(id)).store == (if id in s.jobs.mirrored then noted else s.store)
  {
    RecordedIsWith(s.store.mem.value, id);
  }

  /** A job becomes one that this process removed itself exactly when an exit from standby removes it. */
  lemma OwnRemovalExactly(s: State, e: Event, id: JobId)
    requires id !in s.jobs.resetIds
    ensures id in Step(s, e).jobs.resetIds <==> e == LeaveRemove(id) && s.call == LeaveRemoving
  {}

  /** A run report starts exactly off standby, with the file loaded. */
  lemma ReportsExactly(s: State)
    ensures Step(s, RunReport).sent.runPosts ==
            s.sent.runPosts + (if s.store.mem.Some? && !s.store.mem.value.standby then 1 else 0)
  {}
}
