/**
 The upload scheduler of `whatsapp_session_backup.py`: when the session copy goes to the cloud.

 Times are exact reals of one monotonic clock. The manifest, the file fingerprints, the archive and
 the upload itself come in from outside. A tick holds the lock, so its awaits are not interleaved
 with another tick, `upload_now` or the logout. `request_upload_soon` does not take the lock; a call while
 an upload is under way is part of the look, and one at an earlier await comes to the same as before the tick.
 */
module WhatsappBackup {
  import opened Common
  import opened Backoff

  const FAILURE_BACKOFF: real := 60.0
  const MAX_FAILURE_BACKOFF: real := 900.0

  type Fingerprint = nat

  datatype Config = Config(quiet: real, minInterval: real, maxStaleness: real)

  /** The fields of the loop object. */
  datatype Schedule = Schedule(uploaded: Option<Fingerprint>, seen: Option<Fingerprint>, changedAt: real,
                               uploadedAt: Option<real>, firstPendingAt: Option<real>, urgent: bool,
                               retryAt: Option<real>, failures: nat)

  /** What building the archive came to. */
  datatype Archive = Unstable | NoAccount | Built

  /**
   What one look at the world shows; `removed` is whether a local session had to be deleted, `raised` whether
   `request_upload_soon`, which does not take the lock, was called while the upload was under way.
   */
  datatype Look = Look(disconnected: bool, removed: bool, fingerprint: Option<Fingerprint>, now: real,
                       archive: Archive, sent: bool, raised: bool)

  datatype Result = Skipped | Tried | Done

  const FRESH: Schedule := Schedule(None, None, 0.0, None, None, false, None, 0)

  // --- what the methods compute -----------------------------------------------------------------

  function Forgotten(l: Schedule): Schedule {
    l.(uploaded := None, uploadedAt := None, firstPendingAt := None, urgent := false, retryAt := None, failures := 0)
  }

  predicate IsPending(l: Schedule, look: Look) {
    !look.disconnected && look.fingerprint.Some? && look.fingerprint != l.uploaded
  }

  /** The bookkeeping of a pending change: a new fingerprint restarts the quiet period, not the staleness. */
  function Noted(l: Schedule, look: Look): Schedule {
    if look.fingerprint == l.seen then l
    else l.(seen := look.fingerprint, changedAt := look.now,
            firstPendingAt := if l.firstPendingAt.None? then Some(look.now) else l.firstPendingAt)
  }

  predicate IsDue(c: Config, l: Schedule, now: real) {
    var quiet := now - l.changedAt >= c.quiet;
    var intervalOk := l.urgent || l.uploadedAt.None? || now - l.uploadedAt.value >= c.minInterval;
    var stale := l.firstPendingAt.Some? && now - l.firstPendingAt.value >= c.maxStaleness;
    ((quiet && intervalOk) || stale) && (l.retryAt.None? || l.retryAt.value <= now)
  }

  /** `_upload`; a success takes back urgency that was raised meanwhile, too. */
  function Uploaded(l: Schedule, look: Look): (Schedule, Result) {
    var m := l.(urgent := l.urgent || look.raised);
    if look.archive != Built then (m, Tried)
    else if !look.sent then
      (m.(failures := l.failures + 1,
          retryAt := Some(look.now + Capped(FAILURE_BACKOFF, l.failures + 1, MAX_FAILURE_BACKOFF))), Tried)
    else
      (m.(uploaded := look.fingerprint, uploadedAt := Some(look.now), firstPendingAt := None, urgent := false,
          retryAt := None, failures := 0), Done)
  }

  function Ticked(c: Config, l: Schedule, look: Look): (Schedule, Result) {
    if look.disconnected then ((if look.removed then Forgotten(l) else l).(seen := None), Skipped)
    else if !IsPending(l, look) then (l.(seen := look.fingerprint, firstPendingAt := None), Skipped)
    else if IsDue(c, Noted(l, look), look.now) then Uploaded(Noted(l, look), look)
    else (Noted(l, look), Skipped)
  }

  function UploadedNow(l: Schedule, look: Look): (Schedule, Result) {
    if IsPending(l, look) then Uploaded(l, look) else (l, Skipped)
  }

  // --- the loop object --------------------------------------------------------------------------

  class BackupLoop {
    const config: Config
    var uploaded: Option<Fingerprint>
    var seen: Option<Fingerprint>
    var changedAt: real
    var uploadedAt: Option<real>
    var firstPendingAt: Option<real>
    var urgent: bool
    var retryAt: Option<real>
    var failures: nat

    ghost function Abs(): Schedule
      reads this
    {
      Schedule(uploaded, seen, changedAt, uploadedAt, firstPendingAt, urgent, retryAt, failures)
    }

    constructor (config: Config)
      ensures Abs() == FRESH && this.config == config
    {
      this.config := config;
      uploaded, seen, changedAt := None, None, 0.0;
      uploadedAt, firstPendingAt, urgent, retryAt, failures := None, None, false, None, 0;
    }

    method RequestUploadSoon()
      modifies this
      ensures Abs() == old(Abs()).(urgent := true)
    {
      urgent := true;
    }

    method ForgetUploaded()
      modifies this
      ensures Abs() == Forgotten(old(Abs()))
    {
      uploaded, uploadedAt, firstPendingAt := None, None, None;
      urgent, retryAt, failures := false, None, 0;
    }

    method UploadNow(look: Look) returns (result: Result)
      modifies this
      ensures (Abs(), result) == UploadedNow(old(Abs()), look)
    {
      if look.disconnected { return Skipped; }
      if look.fingerprint.None? || look.fingerprint == uploaded { return Skipped; }
      result := Upload(look);
    }

    method Tick(look: Look) returns (result: Result)
      modifies this
      ensures (Abs(), result) == Ticked(config, old(Abs()), look)
    {
      if look.disconnected {
        if look.removed { ForgetUploaded(); }
        seen := None;
        return Skipped;
      }
      if look.fingerprint.None? || look.fingerprint == uploaded {
        seen, firstPendingAt := look.fingerprint, None;
        return Skipped;
      }
      if look.fingerprint != seen {
        seen, changedAt := look.fingerprint, look.now;
        if firstPendingAt.None? { firstPendingAt := Some(look.now); }
      }
      var quiet := look.now - changedAt >= config.quiet;
      var intervalOk := urgent || uploadedAt.None? || look.now - uploadedAt.value >= config.minInterval;
      var stale := firstPendingAt.Some? && look.now - firstPendingAt.value >= config.maxStaleness;
      if !((quiet && intervalOk) || stale) { return Skipped; }
      if retryAt.Some? && look.now < retryAt.value { return Skipped; }
      result := Upload(look);
    }

    method Upload(look: Look) returns (result: Result)
      modifies this
      ensures (Abs(), result) == Uploaded(old(Abs()), look)
    {
      // while the archive is built and sent
      if look.raised { RequestUploadSoon(); }
      if look.archive != Built { return Tried; }
      if !look.sent {
        failures := failures + 1;
        retryAt := Some(look.now + Capped(FAILURE_BACKOFF, failures, MAX_FAILURE_BACKOFF));
        return Tried;
      }
      uploaded, uploadedAt, firstPendingAt := look.fingerprint, Some(look.now), None;
      urgent, retryAt, failures := false, None, 0;
      return Done;
    }
  }
}
