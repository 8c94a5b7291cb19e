/** When session copies are uploaded, over whole runs of ticks, `upload_now`, urgency and forgotten copies. */
module WhatsappBackupRuns {
  import opened Common
  import opened Backoff
  import opened WhatsappBackup

  datatype Op = Tick(look: Look) | UploadNow(look: Look) | Urgent | Forget

  /** Uploads in order, with forgotten copies marking where one series ends. */
  datatype Entry = Copy(at: real, fingerprint: Option<Fingerprint>, byTick: bool, urgent: bool) | Forgot

  /** The files that the last ticks have all shown, and the time of the first of these ticks. */
  datatype Shown = Shown(fingerprint: Option<Fingerprint>, at: real)

  /** Failed uploads in a row, and when the last one failed. */
  datatype Failures = Failures(count: nat, at: real)

  /**
   All but `schedule` is history, kept from what was looked at and done, never from the schedule. `since` is the
   first tick of the stretch of ticks that all showed an unsaved change; `asked` is urgency raised since the
   last copy.
   */
  datatype State = State(schedule: Schedule, now: real, since: Option<real>, shown: Option<Shown>, asked: bool,
                         failed: Failures, log: seq<Entry>)

  const UNFAILED: Failures := Failures(0, 0.0)

  function LastCopy(log: seq<Entry>): Option<Entry> {
    if log != [] && log[|log| - 1].Copy? then Some(log[|log| - 1]) else None
  }

  /** The files show something that the last copy does not hold. */
  predicate Unsaved(log: seq<Entry>, look: Look) {
    && !look.disconnected && look.fingerprint.Some?
    && !(LastCopy(log).Some? && LastCopy(log).value.fingerprint == look.fingerprint)
  }

  /** What an upload, or a skipped one, adds to the history. */
  function Remember(s: State, l: Schedule, look: Look, result: Result, byTick: bool): State {
    match result
    case Skipped => s.(schedule := l, now := look.now)
    case Tried =>
      s.(schedule := l, now := look.now, asked := s.asked || look.raised,
         failed := if look.archive == Built && !look.sent then Failures(s.failed.count + 1, look.now) else s.failed)
    case Done =>
      s.(schedule := l, now := look.now, since := None, asked := false, failed := UNFAILED,
         log := s.log + [Copy(look.now, look.fingerprint, byTick, s.asked)])
  }

  function ForgetCopy(s: State): State { s.(since := None, asked := false, failed := UNFAILED, log := s.log + [Forgot]) }

  /** What a tick shows, whatever comes of it. */
  function Show(s: State, look: Look): State {
    s.(since := if look.disconnected then s.since
                else if !Unsaved(s.log, look) then None
                else if s.since.None? then Some(look.now) else s.since,
       shown := if look.disconnected || look.fingerprint.None? then None
                else if s.shown.Some? && s.shown.value.fingerprint == look.fingerprint then s.shown
                else Some(Shown(look.fingerprint, look.now)))
  }

  /** The clock does not go back; an earlier look is not part of a run. */
  function Step(c: Config, s: State, op: Op): State {
    match op
    case Tick(look) =>
      if look.now < s.now then s
      else
        var (l, result) := Ticked(c, s.schedule, look);
        var t := Remember(Show(s, look), l, look, result, true);
        if look.disconnected && look.removed then ForgetCopy(t) else t
    case UploadNow(look) =>
      if look.now < s.now then s
      else
        var (l, result) := UploadedNow(s.schedule, look);
        Remember(s, l, look, result, false)
    case Urgent => s.(schedule := s.schedule.(urgent := true), asked := true)
    case Forget => ForgetCopy(s.(schedule := Forgotten(s.schedule)))
  }

  function Start(now: real): State { State(FRESH, now, None, None, false, UNFAILED, []) }

  function Exec(c: Config, now: real, ops: seq<Op>): State {
    if ops == [] then Start(now) else Step(c, Exec(c, now, ops[..|ops| - 1]), ops[|ops| - 1])
  }

  // --- what the schedule knows ------------------------------------------------------------------

  /** The pause after a row of failed uploads. */
  function RetryAt(failed: Failures): Option<real> {
    if failed.count == 0 then None else Some(failed.at + Capped(60.0, failed.count, 900.0))
  }

  /** In every run the schedule knows the last copy, the urgency, the failures and what the ticks show. */
  ghost predicate Known(s: State) {
    && s.schedule.uploaded == (if LastCopy(s.log).Some? then LastCopy(s.log).value.fingerprint else None)
    && s.schedule.uploadedAt == (if LastCopy(s.log).Some? then Some(LastCopy(s.log).value.at) else None)
    && s.schedule.urgent == s.asked
    && s.schedule.failures == s.failed.count && s.schedule.retryAt == RetryAt(s.failed)
    && s.schedule.seen == (if s.shown.Some? then s.shown.value.fingerprint else None)
    && (LastCopy(s.log).Some? ==> LastCopy(s.log).value.fingerprint.Some? && LastCopy(s.log).value.at <= s.now)
    && (s.shown.Some? ==> s.shown.value.fingerprint.Some?)
  }

  lemma UploadKnown(s: State, t: State, l: Schedule, look: Look, byTick: bool)
    requires Known(s) && Unsaved(s.log, look) && look.now >= s.now
    requires t.log == s.log && t.asked == s.asked && t.failed == s.failed
    requires l == s.schedule.(seen := l.seen, changedAt := l.changedAt, firstPendingAt := l.firstPendingAt)
    requires l.seen == (if t.shown.Some? then t.shown.value.fingerprint else None)
    requires t.shown.Some? ==> t.shown.value.fingerprint.Some?
    ensures var (m, result) := Uploaded(l, look); Known(Remember(t, m, look, result, byTick))
  {
    var (m, result) := Uploaded(l, look);
    var u := Remember(t, m, look, result, byTick);
    if result == Done { assert LastCopy(u.log) == Some(Copy(look.now, look.fingerprint, byTick, t.asked)); }
  }

  lemma ForgetKnown(s: State)
    requires s.schedule == Forgotten(s.schedule)
    requires s.schedule.seen == (if s.shown.Some? then s.shown.value.fingerprint else None)
    requires s.shown.Some? ==> s.shown.value.fingerprint.Some?
    ensures Known(ForgetCopy(s))
  {
    assert LastCopy(s.log + [Forgot]) == None;
  }

  lemma TickKnown(c: Config, s: State, look: Look)
    requires Known(s) && look.now >= s.now && !look.disconnected
    ensures Known(Step(c, s, Tick(look)))
  {
    if Unsaved(s.log, look) && IsDue(c, Noted(s.schedule, look), look.now) {
      UploadKnown(s, Show(s, look), Noted(s.schedule, look), look, true);
    }
  }

  lemma DisconnectedKnown(c: Config, s: State, look: Look)
    requires Known(s) && look.now >= s.now && look.disconnected
    ensures Known(Step(c, s, Tick(look)))
  {
    if look.removed { ForgetKnown(Show(s, look).(schedule := Forgotten(s.schedule).(seen := None), now := look.now)); }
  }

  lemma UploadNowKnown(c: Config, s: State, look: Look)
    requires Known(s) && look.now >= s.now
    ensures Known(Step(c, s, UploadNow(look)))
  {
    if Unsaved(s.log, look) { UploadKnown(s, s, s.schedule, look, false); }
  }

  lemma StepKnown(c: Config, s: State, op: Op)
    requires Known(s)
    ensures Known(Step(c, s, op))
  {
    match op
    case Tick(look) =>
      if look.now >= s.now {
        if look.disconnected { DisconnectedKnown(c, s, look); } else { TickKnown(c, s, look); }
      }
    case UploadNow(look) => if look.now >= s.now { UploadNowKnown(c, s, look); }
    case Urgent =>
    case Forget => ForgetKnown(s.(schedule := Forgotten(s.schedule)));
  }

  lemma {:induction false} RunKnown(c: Config, now: real, ops: seq<Op>)
    ensures Known(Exec(c, now, ops))
  {
    if ops != [] {
      RunKnown(c, now, ops[..|ops| - 1]);
      StepKnown(c, Exec(c, now, ops[..|ops| - 1]), ops[|ops| - 1]);
    }
  }

  // --- the interval -----------------------------------------------------------------------------

  /** A tick upload that nobody asked for keeps the interval to the upload before it. */
  ghost predicate Spaced(c: Config, log: seq<Entry>) {
    forall i :: 0 < i < |log| && log[i].Copy? && log[i - 1].Copy? && log[i].byTick && !log[i].urgent ==>
      log[i].at - log[i - 1].at >= c.minInterval
  }

  /** A change is pending only since the last copy. */
  ghost predicate SpacingInv(c: Config, s: State) {
    && Spaced(c, s.log)
    && (LastCopy(s.log).Some? && s.schedule.firstPendingAt.Some? ==>
          LastCopy(s.log).value.at <= s.schedule.firstPendingAt.value)
  }

  lemma OneMoreSpaced(c: Config, log: seq<Entry>, e: Entry)
    requires Spaced(c, log)
    requires e.Copy? && e.byTick && !e.urgent && LastCopy(log).Some? ==> e.at - LastCopy(log).value.at >= c.minInterval
    ensures Spaced(c, log + [e]) && LastCopy(log + [e]) == if e.Copy? then Some(e) else None
  {}

  lemma TickSpaces(c: Config, s: State, look: Look)
    requires Known(s) && SpacingInv(c, s) && c.maxStaleness >= c.minInterval && look.now >= s.now && !look.disconnected
    ensures SpacingInv(c, Step(c, s, Tick(look)))
  {
    var (l, result) := Ticked(c, s.schedule, look);
    if result == Done { OneMoreSpaced(c, s.log, Copy(look.now, look.fingerprint, true, s.asked)); }
  }

  lemma DisconnectedSpaces(c: Config, s: State, look: Look)
    requires SpacingInv(c, s) && look.now >= s.now && look.disconnected
    ensures SpacingInv(c, Step(c, s, Tick(look)))
  {
    OneMoreSpaced(c, s.log, Forgot);
  }

  lemma UploadNowSpaces(c: Config, s: State, look: Look)
    requires SpacingInv(c, s) && look.now >= s.now
    ensures SpacingInv(c, Step(c, s, UploadNow(look)))
  {
    OneMoreSpaced(c, s.log, Copy(look.now, look.fingerprint, false, s.asked));
  }

  lemma SpacingStep(c: Config, s: State, op: Op)
    requires Known(s) && SpacingInv(c, s) && c.maxStaleness >= c.minInterval
    ensures SpacingInv(c, Step(c, s, op))
  {
    match op
    case Tick(look) =>
      if look.now >= s.now {
        if look.disconnected { DisconnectedSpaces(c, s, look); } else { TickSpaces(c, s, look); }
      }
    case UploadNow(look) => if look.now >= s.now { UploadNowSpaces(c, s, look); }
    case Urgent =>
    case Forget => OneMoreSpaced(c, s.log, Forgot);
  }

  lemma {:induction false} SpacingRun(c: Config, now: real, ops: seq<Op>)
    requires c.maxStaleness >= c.minInterval
    ensures SpacingInv(c, Exec(c, now, ops))
  {
    if ops != [] {
      SpacingRun(c, now, ops[..|ops| - 1]);
      RunKnown(c, now, ops[..|ops| - 1]);
      SpacingStep(c, Exec(c, now, ops[..|ops| - 1]), ops[|ops| - 1]);
    }
  }

  lemma ExecThree(c: Config, now: real, a: Op, b: Op, d: Op)
    ensures Exec(c, now, [a, b, d]) == Step(c, Step(c, Step(c, Start(now), a), b), d)
  {
    assert [a, b, d][..2] == [a, b] && [a, b][..1] == [a] && [a][..0] == [];
    assert Exec(c, now, [a]) == Step(c, Exec(c, now, []), a);
    assert Exec(c, now, [a, b]) == Step(c, Exec(c, now, [a]), b);
  }

  /**
   Every run keeps the interval, even through the stale branch, exactly when the staleness bound is
   not below the interval.
   */
  lemma IntervalIsKept(c: Config)
    requires c.quiet >= 0.0 && c.maxStaleness > 0.0
    ensures (forall now, ops :: Spaced(c, Exec(c, now, ops).log)) <==> c.maxStaleness >= c.minInterval
  {
    if c.maxStaleness >= c.minInterval {
      forall now, ops ensures Spaced(c, Exec(c, now, ops).log) { SpacingRun(c, now, ops); }
    } else {
      TooStaleBreaksInterval(c);
    }
  }

  /** One upload, a change right after it, and the staleness bound reached before the interval. */
  lemma TooStaleBreaksInterval(c: Config)
    requires c.quiet >= 0.0 && 0.0 < c.maxStaleness < c.minInterval
    ensures exists now, ops :: !Spaced(c, Exec(c, now, ops).log)
  {
    var first := UploadNow(Look(false, false, Some(1), 0.0, Built, true, false));
    var change := Tick(Look(false, false, Some(2), 0.0, Built, true, false));
    var late := Tick(Look(false, false, Some(2), c.maxStaleness, Built, true, false));
    ExecThree(c, 0.0, first, change, late);
    var s := Step(c, Start(0.0), first);
    assert s.log == [Copy(0.0, Some(1), false, false)];
    var t := Step(c, s, change);
    assert t.log == s.log && t.schedule.firstPendingAt == Some(0.0);
    var u := Step(c, t, late);
    assert u.log == [Copy(0.0, Some(1), false, false), Copy(c.maxStaleness, Some(2), true, false)];
    assert u.log[1].Copy? && u.log[1].at - u.log[0].at < c.minInterval;
    assert !Spaced(c, Exec(c, 0.0, [first, change, late]).log);
  }

  // --- what is pending --------------------------------------------------------------------------

  /** The time since which every tick, this one included, has shown these files. */
  function UnchangedSince(s: State, look: Look): real {
    if s.shown.Some? && s.shown.value.fingerprint == look.fingerprint then s.shown.value.at else look.now
  }

  /** The time since which every tick, this one included, has shown something unsaved. */
  function UnsavedSince(s: State, look: Look): real { if s.since.Some? then s.since.value else look.now }

  /** The schedule knows exactly since when a change is pending, and since when it has looked the same. */
  ghost predicate PendingInv(s: State) {
    && s.schedule.firstPendingAt == s.since
    && (s.since.None? ==> s.schedule.seen.None? || s.schedule.seen == s.schedule.uploaded)
    && (s.schedule.seen != s.schedule.uploaded && s.shown.Some? ==> s.schedule.changedAt == s.shown.value.at)
  }

  /** `upload_now` copies another state than the one last seen, or the copy is forgotten while one was seen. */
  predicate Hides(s: State, op: Op) {
    && s.shown.Some?
    && match op
       case UploadNow(look) =>
         look.now >= s.now && UploadedNow(s.schedule, look).1 == Done && look.fingerprint != s.shown.value.fingerprint
       case Forget => true
       case Tick(_) => false
       case Urgent => false
  }

  ghost predicate NothingHidden(c: Config, now: real, ops: seq<Op>) {
    forall n :: 0 <= n < |ops| ==> !Hides(Exec(c, now, ops[..n]), ops[n])
  }

  lemma QuietTickKeepsPending(c: Config, s: State, look: Look)
    requires Known(s) && PendingInv(s) && look.now >= s.now && !Unsaved(s.log, look)
    ensures PendingInv(Step(c, s, Tick(look)))
  {
    assert !IsPending(s.schedule, look);
  }

  /** What a tick notes of an unsaved change is what the history says. */
  lemma NotedIsKnown(s: State, look: Look)
    requires Known(s) && PendingInv(s) && Unsaved(s.log, look)
    ensures var l := Noted(s.schedule, look);
            && l.firstPendingAt == Some(UnsavedSince(s, look)) && l.seen == look.fingerprint
            && l.changedAt == UnchangedSince(s, look) && l.uploaded == s.schedule.uploaded != look.fingerprint
    ensures Show(s, look).since == Some(UnsavedSince(s, look))
    ensures Show(s, look).shown == Some(Shown(look.fingerprint, UnchangedSince(s, look)))
  {}

  lemma TickKeepsPending(c: Config, s: State, look: Look)
    requires Known(s) && PendingInv(s)
    ensures PendingInv(Step(c, s, Tick(look)))
  {
    if look.now >= s.now {
      if Unsaved(s.log, look) {
        NotedIsKnown(s, look);
        assert IsPending(s.schedule, look);
        var (l, result) := Ticked(c, s.schedule, look);
        assert l.seen == look.fingerprint && l.changedAt == UnchangedSince(s, look);
        assert result == Done || (l.firstPendingAt == Some(UnsavedSince(s, look)) && l.uploaded == s.schedule.uploaded);
      } else {
        QuietTickKeepsPending(c, s, look);
      }
    }
  }

  lemma UploadNowHides(c: Config, s: State, look: Look)
    requires Known(s) && PendingInv(s)
    ensures PendingInv(Step(c, s, UploadNow(look))) <==> !Hides(s, UploadNow(look))
  {
    if look.now >= s.now {
      var (l, result) := UploadedNow(s.schedule, look);
      assert l.seen == s.schedule.seen && l.changedAt == s.schedule.changedAt;
      assert result == Done ==> l.uploaded == look.fingerprint && look.fingerprint.Some?;
    }
  }

  /** Exactly these steps lose track of what is pending. */
  lemma PendingStep(c: Config, s: State, op: Op)
    requires Known(s) && PendingInv(s)
    ensures PendingInv(Step(c, s, op)) <==> !Hides(s, op)
  {
    match op
    case Tick(look) => TickKeepsPending(c, s, look);
    case UploadNow(look) => UploadNowHides(c, s, look);
    case Urgent =>
    case Forget =>
  }

  lemma {:induction false} PendingRun(c: Config, now: real, ops: seq<Op>)
    requires NothingHidden(c, now, ops)
    ensures Known(Exec(c, now, ops)) && PendingInv(Exec(c, now, ops))
  {
    RunKnown(c, now, ops);
    if ops != [] {
      var before := ops[..|ops| - 1];
      forall n | 0 <= n < |before| ensures !Hides(Exec(c, now, before[..n]), before[n]) {
        assert before[..n] == ops[..n] && before[n] == ops[n];
      }
      PendingRun(c, now, before);
      PendingStep(c, Exec(c, now, before), ops[|ops| - 1]);
    }
  }

  // --- when an upload is attempted --------------------------------------------------------------

  /** The files have settled, and the interval is over or somebody asked. */
  predicate Settled(c: Config, s: State, look: Look) {
    && look.now >= UnchangedSince(s, look) + c.quiet
    && (s.asked || LastCopy(s.log).None? || look.now >= LastCopy(s.log).value.at + c.minInterval)
  }

  predicate Paused(s: State, look: Look) { RetryAt(s.failed).Some? && look.now < RetryAt(s.failed).value }

  /**
   In a run in which nothing is hidden, so in every run of ticks alone, a tick attempts an upload exactly when
   it shows something unsaved, the pause after the last failures is over, and either the files have settled and
   the interval allows it, or ticks have shown something unsaved for as long as is allowed at most.
   */
  lemma AttemptedExactly(c: Config, now: real, ops: seq<Op>, s: State, look: Look)
    requires NothingHidden(c, now, ops) && s == Exec(c, now, ops) && look.now >= s.now
    ensures Ticked(c, s.schedule, look).1 != Skipped <==>
              && Unsaved(s.log, look) && !Paused(s, look)
              && (Settled(c, s, look) || look.now >= UnsavedSince(s, look) + c.maxStaleness)
  {
    PendingRun(c, now, ops);
    assert Known(s) && PendingInv(s);
    assert IsPending(s.schedule, look) <==> Unsaved(s.log, look);
    if Unsaved(s.log, look) { DueExactly(c, s, look); }
  }

  lemma DueExactly(c: Config, s: State, look: Look)
    requires Known(s) && PendingInv(s) && Unsaved(s.log, look)
    ensures IsDue(c, Noted(s.schedule, look), look.now) <==>
              !Paused(s, look) && (Settled(c, s, look) || look.now >= UnsavedSince(s, look) + c.maxStaleness)
  {
    NotedIsKnown(s, look);
    var l := Noted(s.schedule, look);
    assert l.retryAt == RetryAt(s.failed) && l.urgent == s.asked && l.uploadedAt == s.schedule.uploadedAt;
  }

  /** `upload_now` attempts an upload exactly when it finds something unsaved, in every run. */
  lemma AttemptedNowExactly(c: Config, now: real, ops: seq<Op>, s: State, look: Look)
    requires s == Exec(c, now, ops)
    ensures UploadedNow(s.schedule, look).1 != Skipped <==> Unsaved(s.log, look)
  {
    RunKnown(c, now, ops);
    assert IsPending(s.schedule, look) <==> Unsaved(s.log, look);
  }

  /** An attempt makes a copy exactly when the archive is built and sent, in every run. */
  lemma CopiedExactly(c: Config, s: State, op: Op)
    requires op.Tick? || op.UploadNow?
    ensures var result := if op.Tick? then Ticked(c, s.schedule, op.look).1 else UploadedNow(s.schedule, op.look).1;
            && (result == Done <==> result != Skipped && op.look.archive == Built && op.look.sent)
            && (op.look.now >= s.now && result == Done ==>
                  LastCopy(Step(c, s, op).log) == Some(Copy(op.look.now, op.look.fingerprint, op.Tick?, s.asked)))
  {}

  /** The pause after failures: a minute, doubled with each failure in a row up to a quarter of an hour. */
  lemma PausesGrow(failed: Failures)
    requires failed.count > 0
    ensures RetryAt(failed) == Some(failed.at + MinReal(Doubled(60.0, failed.count - 1), 900.0))
    ensures failed.at + 60.0 <= RetryAt(failed).value <= failed.at + 900.0
  {
    assert Doubled(60.0, 4) == 960.0 by { assert Doubled(60.0, 2) == 240.0; }
    DoubledGrows(60.0, 4, MAX_EXPONENT);
    CappedIsExact(60.0, failed.count, 900.0);
  }

  /**
   So a change pending since `t0` is attempted at the first tick past `t0 + maxStaleness` that is also past the
   pause, which ends at most 900 s after the last failed upload.
   */
  lemma StaleChangeIsTried(c: Config, now: real, ops: seq<Op>, s: State, look: Look)
    requires NothingHidden(c, now, ops) && s == Exec(c, now, ops) && look.now >= s.now
    requires s.since.Some? && Unsaved(s.log, look) && look.now >= s.since.value + c.maxStaleness
    ensures Ticked(c, s.schedule, look).1 != Skipped <==> !Paused(s, look)
    ensures s.failed.count == 0 || look.now >= s.failed.at + 900.0 ==> Ticked(c, s.schedule, look).1 != Skipped
  {
    AttemptedExactly(c, now, ops, s, look);
    if s.failed.count > 0 { PausesGrow(s.failed); }
  }

  // --- what hides a change ----------------------------------------------------------------------

  /** After any hiding step a tick can show a change that the schedule does not know to be pending. */
  lemma HiddenChangeIsMissed(c: Config, s: State, op: Op) returns (look: Look)
    requires Known(s) && PendingInv(s) && Hides(s, op)
    ensures look.now >= Step(c, s, op).now
    ensures var t := Step(c, Step(c, s, op), Tick(look)); t.since.Some? && t.schedule.firstPendingAt.None?
  {
    look := Look(false, false, s.shown.value.fingerprint, Step(c, s, op).now, Unstable, false, false);
    var t := Step(c, s, op);
    StepKnown(c, s, op);
    assert Unsaved(t.log, look) && t.schedule.seen == look.fingerprint && t.schedule.firstPendingAt.None?;
  }

  lemma ShowsOne(c: Config)
    requires c.quiet >= 0.0 && c.minInterval > 0.0
    ensures var look := Look(false, false, Some(1), 0.0, Built, true, false);
            var s := Step(c, Start(0.0), Tick(look));
            s.schedule.seen == Some(1) && s.now == 0.0 && s.schedule.uploaded != Some(2)
  {}

  lemma CopiesTwo(c: Config, s: State)
    requires s.schedule.seen == Some(1) && s.now == 0.0 && s.schedule.uploaded != Some(2)
    ensures var look := Look(false, false, Some(2), 0.0, Built, true, false);
            var t := Step(c, s, UploadNow(look));
            && t.schedule.seen == Some(1) && t.schedule.uploaded == Some(2) && t.schedule.firstPendingAt.None? && t.now == 0.0
            && LastCopy(t.log).Some? && LastCopy(t.log).value.fingerprint == Some(2)
  {}

  /** Such a run from the start: after `upload_now` copied another state, the change back is not noticed. */
  lemma UploadNowHidesAChange(c: Config)
    requires c.quiet >= 0.0 && c.minInterval > 0.0
    ensures exists now, ops :: var s := Exec(c, now, ops); s.since.Some? && s.schedule.firstPendingAt.None?
  {
    var look := Tick(Look(false, false, Some(1), 0.0, Built, true, false));
    var jump := UploadNow(Look(false, false, Some(2), 0.0, Built, true, false));
    var back := Look(false, false, Some(1), 0.0, Built, false, false);
    ExecThree(c, 0.0, look, jump, Tick(back));
    var s := Step(c, Start(0.0), look);
    ShowsOne(c);
    var t := Step(c, s, jump);
    CopiesTwo(c, s);
    var u := Step(c, t, Tick(back));
    assert Unsaved(t.log, back) && IsPending(t.schedule, back) && Noted(t.schedule, back) == t.schedule;
    assert u.since.Some? && u.schedule.firstPendingAt.None?;
    assert Exec(c, 0.0, [look, jump, Tick(back)]) == u;
  }
}
