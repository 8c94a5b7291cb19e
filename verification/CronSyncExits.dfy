/** When a standby exit lets an attempt post something of the old store epoch under the new one. */
module CronSyncExits {
  import opened Common
  import opened CronSync
  import opened CronSyncInvariant
  import opened CronSyncFiles
  import opened CronSyncRuns

  // --- a standby entry whose save fails ----------------------------------------------------------

  lemma Then(es: seq<Event>, s: State, e: Event) returns (es': seq<Event>, s': State)
    requires s == Exec(Init(0), es)
    ensures es' == es + [e] && s' == Step(s, e) == Exec(Init(0), es')
  {
    es', s' := es + [e], Step(s, e);
    assert es'[..|es|] == es;
  }

  /** The file is loaded, the instance is confirmed active and a reader is there. */
  lemma LeakReady() returns (es: seq<Event>, s: State)
    ensures s == Exec(Init(0), es)
    ensures s == State(0, 4, Gate(true, true, false, false), Worker(0, 0, [], map[], None, 0, 0),
                       Store(1, Some(File(0, 0, [], false)), Some(File(0, 0, [], false)), None, {(0, 0)}),
                       Jobs({}, {}, {}, {}), NoCall, true, Sent([], {}, 0))
  {
    es, s := [], Init(0);
    es, s := Then(es, s, Load(true, true));
    es, s := Then(es, s, LeaveCall);
    es, s := Then(es, s, LeaveLoaded);
    es, s := Then(es, s, Reader(true));
  }

  /** A removal is pending and a projection was requested. */
  lemma LeakRequested() returns (es: seq<Event>, s: State)
    ensures s == Exec(Init(0), es) && s.call == NoCall && s.sent.posts == [] && s.now == 0
    ensures s.gate == Gate(true, true, false, false) && s.worker == Worker(1, 0, [Waiting(1)], map[], None, 4, 0)
    ensures s.store == Store(1, Some(File(0, 0, [], false)), Some(File(0, 0, [Removal(7, 0)], false)), None, {(0, 0)})
  {
    es, s := LeakReady();
    assert Recorded(File(0, 0, [], false), 7) == File(0, 0, [Removal(7, 0)], false) by {
      assert [] + [Removal(7, 0)] == [Removal(7, 0)];
    }
    es, s := Then(es, s, Removed(7, true));
  }

  /** The attempt waits for the job list. */
  lemma LeakListing() returns (es: seq<Event>, s: State)
    ensures s == Exec(Init(0), es) && s.call == NoCall && s.sent.posts == [] && s.now == 0 && s.worker.active == Some(0)
    ensures Runs(s, 0, Listing) && !s.worker.attempts[0].Aborted()
    ensures s.store == Store(1, Some(File(0, 0, [], false)), Some(File(0, 0, [Removal(7, 0)], false)), None, {(0, 0)})
  {
    es, s := LeakRequested();
    es, s := Then(es, s, Start(0));
    es, s := Then(es, s, Loaded(0, false));
  }

  /** The entry has recorded standby and waits for its save; the attempt has captured the removal. */
  lemma LeakNumbering() returns (es: seq<Event>, s: State)
    ensures s == Exec(Init(0), es) && s.call == EnterSaving && s.sent.posts == [] && s.now == 0
    ensures Runs(s, 0, Numbering) && !s.worker.attempts[0].Aborted() && s.worker.attempts[0].removed == [Removal(7, 0)]
    ensures s.store == Store(1, Some(File(0, 0, [], false)), Some(File(0, 0, [Removal(7, 0)], true)), None, {(0, 0)})
  {
    es, s := LeakListing();
    es, s := Then(es, s, EnterCall);
    es, s := Then(es, s, EnterLoaded);
    es, s := Then(es, s, Listed(0, {}, {}));
  }

  /** The save failed and the call ended, without an abort. */
  lemma LeakFailed() returns (es: seq<Event>, s: State)
    ensures s == Exec(Init(0), es) && s.call == NoCall && s.sent.posts == [] && s.now == 0
    ensures Runs(s, 0, Numbering) && !s.worker.attempts[0].Aborted() && s.worker.attempts[0].removed == [Removal(7, 0)]
    ensures s.store == Store(1, Some(File(0, 0, [], false)), Some(File(0, 0, [Removal(7, 0)], true)), None, {(0, 0)})
  {
    es, s := LeakNumbering();
    es, s := Then(es, s, SaveBegin(ByEnter));
    es, s := Then(es, s, SaveEnd(false));
  }

  /** The number is drawn, and the exit waits for the removals of the jobs. */
  lemma LeakSaving() returns (es: seq<Event>, s: State)
    ensures s == Exec(Init(0), es) && s.call == LeaveRemoving && s.sent.posts == []
    ensures Runs(s, 0, Saving) && !s.worker.attempts[0].Aborted()
    ensures s.worker.attempts[0].removed == [Removal(7, 0)] && s.worker.attempts[0].number == 1
    ensures s.store == Store(1, Some(File(0, 0, [], false)), Some(File(0, 1, [Removal(7, 0)], true)), None, {(0, 0)})
  {
    es, s := LeakFailed();
    es, s := Then(es, s, LeaveCall);
    es, s := Then(es, s, Number(0));
    es, s := Then(es, s, LeaveLoaded);
  }

  /** The attempt's save is under way, and the exit has taken effect. */
  lemma LeakCleared() returns (es: seq<Event>, s: State)
    ensures s == Exec(Init(0), es) && s.sent.posts == []
    ensures Runs(s, 0, Saving) && !s.worker.attempts[0].Aborted() && |s.worker.chain| > 0
    ensures s.worker.attempts[0].removed == [Removal(7, 0)] && s.worker.attempts[0].number == 1
    ensures s.store.mem == Some(File(1, 1, [], false)) && s.store.onDisk == {(0, 0)}
    ensures s.store.writing == Some(Write(ByPass(0), File(0, 1, [Removal(7, 0)], true)))
  {
    es, s := LeakSaving();
    es, s := Then(es, s, SaveBegin(ByPass(0)));
    es, s := Then(es, s, LeaveClear);
  }

  /**
   The condition is needed. When the save inside `enterCronStandby` fails, the call ends without aborting the
   attempt in flight. If the standby exit then gets through while that attempt waits for its number,
   the attempt posts a removal of the old epoch under the new one, with a stamp that was never on disk.
   */
  lemma FailedEntryLeaksTheOldEpoch() returns (es: seq<Event>)
    ensures var posts := Exec(Init(0), es).sent.posts;
            |posts| == 1 && !posts[0].durable && posts[0].removed == [Removal(7, 0)] && posts[0].epoch == 1
  {
    var s: State;
    es, s := LeakCleared();
    es, s := Then(es, s, SaveEnd(true));
    assert Runs(s, 0, Stamped) && s.store.onDisk == {(0, 0), (0, 1)};
    StampedPosts(s, 0);
    es, s := Then(es, s, Send(0));
  }

  /** Every stamp that was on disk has an epoch already handed out. */
  ghost predicate StampsOld(f: Store) { forall x :: x in f.onDisk ==> x.0 < f.nextEpoch }

  lemma {:induction false} StampsAreOld(now: int, es: seq<Event>)
    ensures StampsOld(Exec(Init(now), es).store)
  {
    if es != [] {
      var n := |es| - 1;
      StampsAreOld(now, es[..n]);
      InitInv(now);
      RunKeeps(Init(now), es[..n]);
      StampsStep(Exec(Init(now), es[..n]), es[n]);
    }
  }

  lemma StampsFile(s: State, e: Event)
    requires FilesInv(s) && StampsOld(s.store) && OfFile(e)
    ensures StampsOld(Act(s, e).store)
  {}

  lemma StampsStep(s: State, e: Event)
    requires Inv(s) && StampsOld(s.store)
    ensures StampsOld(Step(s, e).store)
  {
    if OfPass(e) { PassFrame(s, e); }
    else if OfFile(e) { StampsFile(s, e); }
    else if Plain(e) { PlainFrame(s, e); }
    else { TurnFrame(s, e); }
  }

  // --- exactly the leaking exits ----------------------------------------------------------------

  /** What an attempt captured and may still post was recorded under an epoch already handed out. */
  ghost predicate RemovedOld(p: Pass, nextEpoch: nat) {
    p.phase in {Numbering, Saving, Stamped} ==> forall i :: 0 <= i < |p.removed| ==> p.removed[i].epoch < nextEpoch
  }

  ghost predicate CapturesOld(s: State) {
    forall k :: k in s.worker.attempts ==> RemovedOld(s.worker.attempts[k], s.store.nextEpoch)
  }

  lemma CapturesQuiet(s: State, t: State)
    requires CapturesOld(s) && Quiet(s, t)
    ensures CapturesOld(t)
  {
    forall k | k in t.worker.attempts ensures RemovedOld(t.worker.attempts[k], t.store.nextEpoch) {
      if k in s.worker.attempts { assert RemovedOld(s.worker.attempts[k], s.store.nextEpoch); }
    }
  }

  lemma CapturesListed(s: State, k: nat, mirrored: set<JobId>, foreign: set<JobId>)
    requires FilesInv(s) && CapturesOld(s)
    ensures CapturesOld(PassListed(s, k, mirrored, foreign))
  {
    var t := PassListed(s, k, mirrored, foreign);
    assert t.store == s.store;
    forall j | j in t.worker.attempts ensures RemovedOld(t.worker.attempts[j], t.store.nextEpoch) {
      assert RemovedOld(s.worker.attempts[j], s.store.nextEpoch);
    }
  }

  lemma CapturesOtherPass(s: State, e: Event)
    requires CapturesOld(s) && OfPass(e) && !e.Listed?
    ensures CapturesOld(Act(s, e))
  {
    var t := Act(s, e);
    assert t.store.nextEpoch == s.store.nextEpoch && t.worker.attempts.Keys == s.worker.attempts.Keys by {
      PassFrame(s, e);
      PassMoves(s, e);
    }
    forall k | k in t.worker.attempts ensures RemovedOld(t.worker.attempts[k], t.store.nextEpoch) {
      assert RemovedOld(s.worker.attempts[k], s.store.nextEpoch);
      if k == e.link { OtherPassKeepsRemoved(s, e); } else { OtherAttemptsStay(s, e, k); }
    }
  }

  lemma OtherPassKeepsRemoved(s: State, e: Event)
    requires OfPass(e) && !e.Listed? && e.link in s.worker.attempts
    ensures e.link in Act(s, e).worker.attempts
    ensures var p, q := s.worker.attempts[e.link], Act(s, e).worker.attempts[e.link];
            q.removed == p.removed && (q.phase in {Numbering, Saving, Stamped} ==> p.phase in {Numbering, Saving, Stamped})
  {}

  lemma OtherAttemptsStay(s: State, e: Event, k: nat)
    requires OfPass(e) && k != e.link && k in s.worker.attempts
    ensures k in Act(s, e).worker.attempts && Act(s, e).worker.attempts[k] == s.worker.attempts[k]
  {}

  lemma CapturesSaveEnd(s: State, ok: bool)
    requires CapturesOld(s)
    ensures CapturesOld(EndSave(s, ok))
  {
    var t := EndSave(s, ok);
    forall k | k in t.worker.attempts ensures RemovedOld(t.worker.attempts[k], t.store.nextEpoch) {
      assert RemovedOld(s.worker.attempts[k], s.store.nextEpoch);
    }
  }

  lemma CapturesFile(s: State, e: Event)
    requires CapturesOld(s) && OfFile(e) && !e.Removed? && !e.SaveEnd?
    ensures CapturesOld(Act(s, e))
  {
    var t := Act(s, e);
    forall k | k in t.worker.attempts ensures RemovedOld(t.worker.attempts[k], t.store.nextEpoch) {
      assert RemovedOld(s.worker.attempts[k], s.store.nextEpoch);
    }
  }

  lemma CapturesRemoved(s: State, id: JobId, guess: bool)
    requires CapturesOld(s)
    ensures CapturesOld(OnRemoved(s, id, guess))
  {
    RequestIsQuiet(s);
    RequestIsQuiet(Note(s, id));
    CapturesQuiet(s, RequestProjection(s));
    CapturesQuiet(Note(s, id), RequestProjection(Note(s, id)));
  }

  lemma CapturesStep(s: State, e: Event)
    requires Inv(s) && CapturesOld(s)
    ensures CapturesOld(Step(s, e))
  {
    if e.Listed? { CapturesListed(s, e.link, e.mirrored, e.foreign); }
    else if OfPass(e) { CapturesOtherPass(s, e); }
    else if e.SaveEnd? { CapturesSaveEnd(s, e.ok); }
    else if e.Removed? { CapturesRemoved(s, e.id, e.guess); }
    else if OfFile(e) { CapturesFile(s, e); }
    else {
      if Plain(e) { PlainIsQuiet(s, e); } else { TurnIsQuiet(s, e); }
      CapturesQuiet(s, Step(s, e));
    }
  }

  lemma {:induction false} CapturesAreOld(now: int, es: seq<Event>)
    ensures CapturesOld(Exec(Init(now), es)) && Inv(Exec(Init(now), es))
  {
    InitInv(now);
    RunKeeps(Init(now), es);
    if es != [] {
      CapturesAreOld(now, es[..|es| - 1]);
      CapturesStep(Exec(Init(now), es[..|es| - 1]), es[|es| - 1]);
    }
  }

  /** What is known of a state right after an exit that an attempt leaks through. */
  ghost predicate Carries(t: State, k: nat) {
    && t.store.mem.Some? && k < |t.worker.chain| && k in t.worker.attempts && !t.worker.attempts[k].Aborted()
    && (forall x :: x in t.store.onDisk ==> x.0 != t.store.mem.value.epoch)
    && var removed := t.worker.attempts[k].removed;
       forall i :: 0 <= i < |removed| ==> removed[i].epoch != t.store.mem.value.epoch
  }

  predicate OtherWrite(t: State) { t.store.writing.Some? ==> t.store.writing.value.owner == ByOther }

  lemma ExecPlus(s: State, es: seq<Event>, e: Event)
    ensures Exec(s, es + [e]) == Step(Exec(s, es), e)
  {
    assert (es + [e])[..|es|] == es;
  }

  /** From an attempt that has its stamp, the post goes out. */
  lemma StampedPosts(t: State, k: nat)
    requires k < |t.worker.chain| && Runs(t, k, Stamped) && !t.worker.attempts[k].Aborted() && t.store.mem.Some?
    ensures var p, u := t.worker.attempts[k], Step(t, Send(k));
            var epoch := t.store.mem.value.epoch;
            u.sent.posts == t.sent.posts + [Post(epoch, p.number, p.removed, (epoch, p.number) in t.store.onDisk)]
  {}

  /** The continuation: finish any other write, draw the number, save it, post. */
  ghost predicate PostsUnclean(t: State, more: seq<Event>) {
    LeaveClear !in more && !CleanPosts(Exec(t, more).sent.posts)
  }

  lemma UncleanLast(posts: seq<Post>, p: Post)
    requires !CleanPost(p)
    ensures !CleanPosts(posts + [p])
  {
    assert (posts + [p])[|posts|] == p;
  }

  lemma StampedLeaks(t: State, k: nat) returns (more: seq<Event>)
    requires Carries(t, k) && t.worker.attempts[k].phase == Stamped
    ensures PostsUnclean(t, more)
  {
    more := [Send(k)];
    ExecPlus(t, [], Send(k));
    assert [] + [Send(k)] == more;
    StampedPosts(t, k);
    var p := t.worker.attempts[k];
    var post := Post(t.store.mem.value.epoch, p.number, p.removed, (t.store.mem.value.epoch, p.number) in t.store.onDisk);
    assert !post.durable && !CleanPost(post);
    UncleanLast(t.sent.posts, post);
  }

  /** Its own save under way, of the file as it was before the exit. */
  lemma SavingLeaks(t: State, k: nat) returns (more: seq<Event>)
    requires Carries(t, k) && t.worker.attempts[k].phase == Saving
    requires t.store.writing.Some? && t.store.writing.value.owner == ByPass(k)
    requires t.store.writing.value.file.epoch != t.store.mem.value.epoch
    ensures PostsUnclean(t, more)
  {
    var u := Step(t, SaveEnd(true));
    assert Carries(u, k) && u.worker.attempts[k].phase == Stamped;
    var rest := StampedLeaks(u, k);
    more := [SaveEnd(true)] + rest;
    ExecFrom(t, SaveEnd(true), rest);
  }

  lemma {:induction false} ExecFrom(s: State, e: Event, es: seq<Event>)
    ensures Exec(s, [e] + es) == Exec(Step(s, e), es)
  {
    var all := [e] + es;
    if es == [] {
      assert all == [e] && all[..0] == [];
    } else {
      ExecFrom(s, e, es[..|es| - 1]);
      assert all[..|all| - 1] == [e] + es[..|es| - 1];
    }
  }

  /** With removals of the old epoch in hand the post is unclean even when its stamp is saved in time. */
  lemma RemovedLeaks(t: State, k: nat) returns (more: seq<Event>)
    requires Carries(t, k) && t.worker.attempts[k].phase == Saving && t.worker.attempts[k].removed != []
    requires t.store.writing.None?
    ensures PostsUnclean(t, more)
  {
    var p := t.worker.attempts[k];
    var u := Step(t, SaveBegin(ByPass(k)));
    var v := Step(u, SaveEnd(true));
    assert Runs(v, k, Stamped) && v.worker.attempts[k] == p.(phase := Stamped) && v.store.mem == t.store.mem;
    StampedPosts(v, k);
    var epoch := t.store.mem.value.epoch;
    var post := Post(epoch, p.number, p.removed, (epoch, p.number) in v.store.onDisk);
    assert !CleanPost(post) by { assert p.removed[0].epoch != epoch; }
    UncleanLast(v.sent.posts, post);
    more := [SaveBegin(ByPass(k)), SaveEnd(true), Send(k)];
    ExecPlus(t, [], SaveBegin(ByPass(k)));
    ExecPlus(t, [SaveBegin(ByPass(k))], SaveEnd(true));
    ExecPlus(t, [SaveBegin(ByPass(k)), SaveEnd(true)], Send(k));
    assert [] + [SaveBegin(ByPass(k))] == [SaveBegin(ByPass(k))];
    assert [SaveBegin(ByPass(k))] + [SaveEnd(true)] == [SaveBegin(ByPass(k)), SaveEnd(true)];
    assert [SaveBegin(ByPass(k)), SaveEnd(true)] + [Send(k)] == more;
  }

  /** The number is drawn first when it was not. */
  lemma NumberingLeaks(t: State, k: nat) returns (more: seq<Event>)
    requires Carries(t, k) && t.worker.attempts[k].phase in {Numbering, Saving} && t.worker.attempts[k].removed != []
    requires t.store.writing.None?
    ensures PostsUnclean(t, more)
  {
    if t.worker.attempts[k].phase == Saving {
      more := RemovedLeaks(t, k);
    } else {
      var u := Step(t, Number(k));
      assert Carries(u, k) && u.worker.attempts[k].phase == Saving && u.worker.attempts[k].removed != [];
      var rest := RemovedLeaks(u, k);
      more := [Number(k)] + rest;
      ExecFrom(t, Number(k), rest);
    }
  }

  /** Somebody else's write ends first. */
  lemma BusyLeaks(t: State, k: nat) returns (more: seq<Event>)
    requires Carries(t, k) && t.worker.attempts[k].phase in {Numbering, Saving} && t.worker.attempts[k].removed != []
    requires OtherWrite(t)
    ensures PostsUnclean(t, more)
  {
    if t.store.writing.None? {
      more := NumberingLeaks(t, k);
    } else {
      var u := Step(t, SaveEnd(false));
      assert Carries(u, k) && u.store.writing.None? && u.worker == t.worker;
      var rest := NumberingLeaks(u, k);
      more := [SaveEnd(false)] + rest;
      ExecFrom(t, SaveEnd(false), rest);
    }
  }

  lemma LeakCarries(s: State, k: nat)
    requires Inv(s) && CapturesOld(s) && StampsOld(s.store) && Clears(s, LeaveClear)
    requires k in s.worker.attempts && Leaks(k, s.worker.attempts[k], s.store)
    ensures Carries(Step(s, LeaveClear), k)
  {
    var t := Step(s, LeaveClear);
    assert RemovedOld(s.worker.attempts[k], s.store.nextEpoch);
    assert t.worker == s.worker && t.store.mem.value.epoch == s.store.nextEpoch && t.store.onDisk == s.store.onDisk;
  }

  lemma LeakPosts(s: State, k: nat) returns (more: seq<Event>)
    requires Inv(s) && Clears(s, LeaveClear) && Carries(Step(s, LeaveClear), k)
    requires k in s.worker.attempts && Leaks(k, s.worker.attempts[k], s.store)
    ensures PostsUnclean(Step(s, LeaveClear), more)
  {
    var t, p := Step(s, LeaveClear), s.worker.attempts[k];
    assert t.worker == s.worker && t.store.writing == s.store.writing;
    if p.phase == Stamped {
      more := StampedLeaks(t, k);
    } else if s.store.writing.Some? && s.store.writing.value.owner == ByPass(k) && p.phase == Saving {
      assert s.store.writing.value.file.epoch < s.store.nextEpoch;
      more := SavingLeaks(t, k);
    } else {
      OnlyOthersWrite(s, k);
      more := BusyLeaks(t, k);
    }
  }

  /** After an exit through which an attempt leaks, some continuation without another exit posts something unclean. */
  lemma LeakyExitPosts(now: int, es: seq<Event>, s: State) returns (more: seq<Event>)
    requires s == Exec(Init(now), es) && Clears(s, LeaveClear) && Leaky(s)
    ensures PostsUnclean(Step(s, LeaveClear), more)
  {
    assert Inv(s) && CapturesOld(s) && StampsOld(s.store) by {
      CapturesAreOld(now, es);
      StampsAreOld(now, es);
    }
    var k :| k in s.worker.attempts && Leaks(k, s.worker.attempts[k], s.store);
    LeakCarries(s, k);
    more := LeakPosts(s, k);
  }

  /** While the exit removes jobs, a write that is not the attempt's own belongs to nobody who waits. */
  lemma OnlyOthersWrite(s: State, k: nat)
    requires Inv(s) && s.call == LeaveRemoving && s.store.mem.Some? && k in s.worker.attempts
    requires !(s.store.writing.Some? && s.store.writing.value.owner == ByPass(k) && s.worker.attempts[k].phase == Saving)
    ensures OtherWrite(s)
  {}

  lemma NoClearIsTight(s: State, es: seq<Event>)
    requires LeaveClear !in es
    ensures TightExits(s, es)
  {
    forall n | 0 <= n < |es| ensures !(Clears(Exec(s, es[..n]), es[n]) && Leaky(Exec(s, es[..n]))) {
      assert es[n] in es;
    }
  }

  /**
   Exactly the leaking exits are harmful. After a run whose exits were tight, when an exit takes effect:
   some continuation with tight exits posts a stamp that was not on disk or a removal of another epoch if
   and only if an attempt leaks at this exit.
   */
  lemma ExitLeaksExactly(now: int, es: seq<Event>)
    requires TightExits(Init(now), es) && Clears(Exec(Init(now), es), LeaveClear)
    ensures var s := Exec(Init(now), es);
            var t := Step(s, LeaveClear);
            Leaky(s) <==> exists more :: TightExits(t, more) && !CleanPosts(Exec(t, more).sent.posts)
  {
    var s := Exec(Init(now), es);
    var t := Step(s, LeaveClear);
    if Leaky(s) {
      var more := LeakyExitPosts(now, es, s);
      NoClearIsTight(t, more);
    } else {
      InitInv(now);
      TightRun(Init(now), es);
      StepKeeps(s, LeaveClear);
      CleanStep(s, LeaveClear);
      forall more | TightExits(t, more) ensures CleanPosts(Exec(t, more).sent.posts) { TightRun(t, more); }
    }
  }
}
